/**
 * Feeding a track's ledger (feedMedia, feedAnnouncedTrack and the adopt step of
 * handleAnnouncement, internal/hls/feed.go). What the libraries answer, a subscribe, an
 * append or a new epoch that fails, is an input.
 */
module Timeline {
  import opened Prelude
  import opened Modular
  import opened Ledger

  const NANOS := 1_000_000_000

  /** A media extent in nanoseconds, seconds and remainder converted separately. */
  function MediaOffset(mediaTime: int, timescale: nat): int {
    if timescale == 0 then 0
    else Quot(mediaTime, timescale) * NANOS + Quot(Rem(mediaTime, timescale) * NANOS, timescale)
  }

  lemma OffsetExact(mediaTime: nat, timescale: nat)
    requires timescale > 0
    ensures mediaTime / timescale * NANOS + mediaTime % timescale * NANOS / timescale == mediaTime * NANOS / timescale
  {
    var q, r := mediaTime / timescale, mediaTime % timescale;
    var a, b := r * NANOS / timescale, r * NANOS % timescale;
    Split(mediaTime, timescale, q, r, a, b, NANOS);
    QuotientIs(mediaTime * NANOS, timescale, q * NANOS + a, b);
  }

  /** The split conversion is the exact one, before the start of the timeline too. */
  lemma MediaOffsetExact(mediaTime: int, timescale: nat)
    requires timescale > 0
    ensures MediaOffset(mediaTime, timescale) == Quot(mediaTime * NANOS, timescale)
  {
    OffsetExact(if mediaTime >= 0 then mediaTime else -mediaTime, timescale);
  }

  /** Its remainder product fits an int64 for any 32-bit timescale, which is what the split is for. */
  lemma RemainderFits(mediaTime: int, timescale: nat)
    requires 0 < timescale < 0x1_0000_0000
    ensures -0x8000_0000_0000_0000 <= Rem(mediaTime, timescale) * NANOS <= 0x7fff_ffff_ffff_ffff
  {
  }

  lemma Split(m: nat, t: nat, q: nat, r: nat, a: nat, b: nat, n: nat)
    requires m == t * q + r && r * n == t * a + b
    ensures m * n == t * (q * n + a) + b
  {
  }

  function WallclockAt(anchor: int, mediaTime: nat, timescale: nat): int {
    if timescale == 0 then anchor
    else anchor + mediaTime / timescale * NANOS + mediaTime % timescale * NANOS / timescale
  }

  // ----- what surrounds a feed -----

  type Extent = d: int | d > 0 witness 1

  /** How an append went; one that failed may have been committed all the same. */
  datatype Appending = Took | Refused | FailedButTook

  /** A received group: its measured duration if it could be read and measured, the clock when it landed, and how its append went. */
  datatype Arrival = Arrival(measured: Option<Extent>, now: int, append: Appending)

  /** How opening a new epoch went; a failed one may have been opened all the same. */
  datatype Opening = Opened | Failed | FailedButOpened

  /** One turn of the feed loop: whether the subscribe worked, what arrived, whether the announcement then ended, and how closing the epoch went. */
  datatype Round = Round(subscribed: bool, arrivals: seq<Arrival>, ended: bool, close: Opening, endedWaiting: bool)

  /** An announcement: whether the track and its writer opened, how the adopting epoch went, the rounds, and the last close. */
  datatype Announcement = Announcement(opens: bool, writes: bool, adopt: Opening, rounds: seq<Round>, close: Opening)

  // ----- the ledger -----

  /** A committed group with which feed committed it, the wall clock that feed is anchored at, and whether the feed was told. */
  datatype Entry = Entry(g: Group, feed: nat, anchor: int, told: bool)

  /** How many of the groups the feeds were told of: what countingAppender counts. */
  function Told(log: seq<Entry>): nat {
    if log == [] then 0 else (if log[0].told then 1 else 0) + Told(log[1..])
  }

  /** Each epoch starts at media time zero and continues where its last group ended, one feed throughout. */
  ghost predicate Follows(log: seq<Entry>, i: nat, timescale: nat)
    requires i < |log|
  {
    && log[i].g.duration > 0
    && log[i].g.mediaTime >= 0
    && log[i].g.wallclock == WallclockAt(log[i].anchor, log[i].g.mediaTime, timescale)
    && (i == 0 || log[i - 1].g.epoch < log[i].g.epoch ==> log[i].g.mediaTime == 0)
    && (i > 0 ==>
          && log[i - 1].g.epoch <= log[i].g.epoch
          && (log[i - 1].g.epoch == log[i].g.epoch ==>
                && log[i - 1].feed == log[i].feed
                && log[i - 1].anchor == log[i].anchor
                && log[i].g.mediaTime == log[i - 1].g.mediaTime + log[i - 1].g.duration))
  }

  ghost predicate WellTimed(log: seq<Entry>, timescale: nat) {
    forall i: nat :: i < |log| ==> Follows(log, i, timescale)
  }

  /** The ledger as a value: whether the track exists, its writer's epoch, what was committed, and how many feeds there were. */
  datatype Led = Led(made: bool, epoch: nat, log: seq<Entry>, feeds: nat)

  function OpenEpoch(l: Led, how: Opening): Led {
    if how.Failed? then l else l.(epoch := l.epoch + 1)
  }

  /** What a feed commits of what arrives: every measured group the ledger takes, at the running sum of those before it that the feed was told of. */
  function Fed(arrivals: seq<Arrival>, epoch: nat, feed: nat, mediaTime: nat, anchor: Option<int>, timescale: nat): seq<Entry>
    decreases |arrivals|
  {
    if arrivals == [] then []
    else
      var a := arrivals[0];
      if a.measured.None? then Fed(arrivals[1..], epoch, feed, mediaTime, anchor, timescale)
      else
        var at := if anchor.Some? then anchor.value else a.now;
        if a.append.Refused? then Fed(arrivals[1..], epoch, feed, mediaTime, Some(at), timescale)
        else
          var d := a.measured.value;
          [Entry(Group(epoch, mediaTime, d, WallclockAt(at, mediaTime, timescale)), feed, at, a.append.Took?)]
          + Fed(arrivals[1..], epoch, feed, if a.append.Took? then mediaTime + d else mediaTime, Some(at), timescale)
  }

  function AfterFeed(l: Led, r: Round, timescale: nat): Led {
    l.(feeds := l.feeds + 1,
       log := l.log + (if r.subscribed then Fed(r.arrivals, l.epoch, l.feeds + 1, 0, None, timescale) else []))
  }

  function AfterRounds(l: Led, rounds: seq<Round>, close: Opening, timescale: nat): Led
    decreases |rounds|
  {
    if rounds == [] then l
    else
      var r, l1 := rounds[0], AfterFeed(l, rounds[0], timescale);
      assert |l.log| <= |l1.log|;
      if Told(l1.log[|l.log|..]) > 0 then
        if r.ended then OpenEpoch(l1, close)
        else if !r.close.Opened? then OpenEpoch(OpenEpoch(l1, r.close), close)
        else if r.endedWaiting then OpenEpoch(l1, r.close)
        else AfterRounds(OpenEpoch(l1, r.close), rounds[1..], close, timescale)
      else if r.ended || r.endedWaiting then l1
      else AfterRounds(l1, rounds[1..], close, timescale)
  }

  function AfterAnnounce(l: Led, a: Announcement, timescale: nat): Led {
    if !a.opens then l
    else if !a.writes then l.(made := true)
    else if l.made && !a.adopt.Opened? then OpenEpoch(l, a.adopt)
    else AfterRounds(if l.made then OpenEpoch(l, a.adopt) else l.(made := true), a.rounds, a.close, timescale)
  }

  function AfterAll(l: Led, announcements: seq<Announcement>, timescale: nat): Led
    decreases |announcements|
  {
    if announcements == [] then l
    else AfterAll(AfterAnnounce(l, announcements[0], timescale), announcements[1..], timescale)
  }

  const CREATED := Led(false, 1, [], 0)

  // ----- what every step keeps -----

  /** A group starts its epoch at media time zero, ends where the next of its feed begins, or, if the feed was not told of it, is where the next one is too. */
  ghost predicate Placed(log: seq<Entry>, i: nat, timescale: nat)
    requires i < |log|
  {
    && log[i].g.duration > 0
    && log[i].g.mediaTime >= 0
    && log[i].g.wallclock == WallclockAt(log[i].anchor, log[i].g.mediaTime, timescale)
    && (i == 0 || log[i - 1].g.epoch < log[i].g.epoch ==> log[i].g.mediaTime == 0)
    && (i > 0 ==> log[i - 1].g.epoch <= log[i].g.epoch)
    && (i > 0 && log[i - 1].g.epoch == log[i].g.epoch ==>
          if log[i - 1].told then
            && log[i - 1].feed == log[i].feed
            && log[i - 1].anchor == log[i].anchor
            && log[i].g.mediaTime == log[i - 1].g.mediaTime + log[i - 1].g.duration
          else log[i].g.mediaTime == log[i - 1].g.mediaTime)
  }

  ghost predicate AllPlaced(log: seq<Entry>, timescale: nat) {
    forall i: nat :: i < |log| ==> Placed(log, i, timescale)
  }

  ghost predicate LedOk(l: Led, timescale: nat) {
    && AllPlaced(l.log, timescale)
    && l.epoch > 0
    && (forall i :: 0 <= i < |l.log| ==> 0 < l.log[i].g.epoch <= l.epoch)
    && (!l.made ==> l.log == [])
  }

  /** The current epoch holds no group yet. */
  predicate Empty(l: Led) {
    l.log == [] || l.log[|l.log| - 1].g.epoch < l.epoch
  }

  /** The current epoch holds no group the feeds were told of, so all in it are at media time zero. */
  predicate Untold(l: Led) {
    Empty(l) || (!l.log[|l.log| - 1].told && l.log[|l.log| - 1].g.mediaTime == 0)
  }

  lemma OpenKeeps(l: Led, how: Opening, timescale: nat)
    requires LedOk(l, timescale)
    ensures LedOk(OpenEpoch(l, how), timescale)
    ensures how.Opened? ==> Empty(OpenEpoch(l, how))
  {
  }

  /** Where a feed is in the current epoch: at its start, at the end of its last group, or still where a group is that it was not told of. */
  ghost predicate At(l: Led, mediaTime: nat, anchor: Option<int>) {
    if Empty(l) then mediaTime == 0
    else
      var p := l.log[|l.log| - 1];
      if p.told then p.feed == l.feeds && anchor == Some(p.anchor) && mediaTime == p.g.mediaTime + p.g.duration
      else mediaTime == p.g.mediaTime
  }

  lemma CommitKeeps(l: Led, e: Entry, anchor: Option<int>, timescale: nat)
    requires LedOk(l, timescale) && l.made && e.g.epoch == l.epoch && e.g.duration > 0 && e.g.mediaTime >= 0
    requires e.g.wallclock == WallclockAt(e.anchor, e.g.mediaTime, timescale)
    requires At(l, e.g.mediaTime, anchor) && e.feed == l.feeds && (anchor.Some? ==> e.anchor == anchor.value)
    ensures LedOk(l.(log := l.log + [e]), timescale)
    ensures At(l.(log := l.log + [e]), if e.told then e.g.mediaTime + e.g.duration else e.g.mediaTime, Some(e.anchor))
    ensures e.g.mediaTime == 0 && !e.told ==> Untold(l.(log := l.log + [e]))
  {
    var log' := l.log + [e];
    forall i: nat | i < |log'|
      ensures Placed(log', i, timescale)
    {
      if i < |l.log| {
        assert Placed(l.log, i, timescale);
      }
    }
  }

  lemma {:induction false} FedKeeps(l: Led, arrivals: seq<Arrival>, mediaTime: nat, anchor: Option<int>, timescale: nat)
    requires LedOk(l, timescale) && l.made && At(l, mediaTime, anchor)
    ensures
      var fed := Fed(arrivals, l.epoch, l.feeds, mediaTime, anchor, timescale);
      && LedOk(l.(log := l.log + fed), timescale)
      && (mediaTime == 0 && Untold(l) && Told(fed) == 0 ==> Untold(l.(log := l.log + fed)))
    decreases |arrivals|
  {
    hide LedOk, Untold, WallclockAt;
    if arrivals == [] {
      assert l.log + [] == l.log;
    } else {
      var a := arrivals[0];
      if a.measured.None? {
        FedKeeps(l, arrivals[1..], mediaTime, anchor, timescale);
      } else {
        var at := if anchor.Some? then anchor.value else a.now;
        if a.append.Refused? {
          FedKeeps(l, arrivals[1..], mediaTime, Some(at), timescale);
        } else {
          var d := a.measured.value;
          var e := Entry(Group(l.epoch, mediaTime, d, WallclockAt(at, mediaTime, timescale)), l.feeds, at, a.append.Took?);
          CommitKeeps(l, e, anchor, timescale);
          var l', next := l.(log := l.log + [e]), if a.append.Took? then mediaTime + d else mediaTime;
          hide At;
          FedKeeps(l', arrivals[1..], next, Some(at), timescale);
          var rest := Fed(arrivals[1..], l.epoch, l.feeds, next, Some(at), timescale);
          assert l.log + ([e] + rest) == l'.log + rest;
          assert ([e] + rest)[1..] == rest;
        }
      }
    }
  }

  lemma FeedKeeps(l: Led, r: Round, timescale: nat)
    requires LedOk(l, timescale) && l.made && Untold(l)
    ensures LedOk(AfterFeed(l, r, timescale), timescale) && l.log <= AfterFeed(l, r, timescale).log
    ensures Told(AfterFeed(l, r, timescale).log[|l.log|..]) == 0 ==> Untold(AfterFeed(l, r, timescale))
  {
    var l0, l1 := l.(feeds := l.feeds + 1), AfterFeed(l, r, timescale);
    if r.subscribed {
      FedKeeps(l0, r.arrivals, 0, None, timescale);
      assert l1.log[|l.log|..] == Fed(r.arrivals, l.epoch, l.feeds + 1, 0, None, timescale);
    } else {
      assert l.log + [] == l.log;
    }
  }

  lemma {:induction false} RoundsKeep(l: Led, rounds: seq<Round>, close: Opening, timescale: nat)
    requires LedOk(l, timescale) && l.made && Untold(l)
    ensures LedOk(AfterRounds(l, rounds, close, timescale), timescale) && l.log <= AfterRounds(l, rounds, close, timescale).log
    decreases |rounds|
  {
    hide LedOk, Empty, AfterFeed, Told;
    if rounds != [] {
      var r, l1 := rounds[0], AfterFeed(l, rounds[0], timescale);
      FeedKeeps(l, r, timescale);
      FeedMade(l, r, timescale);
      OpenKeeps(l1, close, timescale);
      OpenKeeps(l1, r.close, timescale);
      OpenKeeps(OpenEpoch(l1, r.close), close, timescale);
      if Told(l1.log[|l.log|..]) > 0 {
        if !r.ended && r.close.Opened? && !r.endedWaiting {
          RoundsKeep(OpenEpoch(l1, r.close), rounds[1..], close, timescale);
        }
      } else if !r.ended && !r.endedWaiting {
        RoundsKeep(l1, rounds[1..], close, timescale);
      }
    }
  }

  lemma FeedMade(l: Led, r: Round, timescale: nat)
    ensures AfterFeed(l, r, timescale).made == l.made
  {
  }

  lemma AnnounceKeeps(l: Led, a: Announcement, timescale: nat)
    requires LedOk(l, timescale)
    ensures LedOk(AfterAnnounce(l, a, timescale), timescale) && l.log <= AfterAnnounce(l, a, timescale).log
  {
    OpenKeeps(l, a.adopt, timescale);
    if a.opens && a.writes && !(l.made && !a.adopt.Opened?) {
      RoundsKeep(if l.made then OpenEpoch(l, a.adopt) else l.(made := true), a.rounds, a.close, timescale);
    }
  }

  lemma {:induction false} AllKeep(l: Led, announcements: seq<Announcement>, timescale: nat)
    requires LedOk(l, timescale)
    ensures LedOk(AfterAll(l, announcements, timescale), timescale) && l.log <= AfterAll(l, announcements, timescale).log
    decreases |announcements|
  {
    if announcements != [] {
      AnnounceKeeps(l, announcements[0], timescale);
      AllKeep(AfterAnnounce(l, announcements[0], timescale), announcements[1..], timescale);
    }
  }

  /** No group that its feed was not told of is followed by another in its epoch. */
  ghost predicate NoneBuried(log: seq<Entry>) {
    forall i: nat :: i + 1 < |log| && log[i].g.epoch == log[i + 1].g.epoch ==> log[i].told
  }

  lemma TimedExactlyWhen(log: seq<Entry>, timescale: nat)
    requires AllPlaced(log, timescale)
    ensures WellTimed(log, timescale) <==> NoneBuried(log)
  {
    if WellTimed(log, timescale) {
      forall i: nat | i + 1 < |log| && log[i].g.epoch == log[i + 1].g.epoch
        ensures log[i].told
      {
        assert Follows(log, i + 1, timescale) && Placed(log, i + 1, timescale) && Placed(log, i, timescale);
      }
    } else {
      var i: nat :| i < |log| && !Follows(log, i, timescale);
      assert Placed(log, i, timescale);
      assert !log[i - 1].told;
    }
  }

  /**
   * Over any run of announcements, one at a time as the broadcast's gate lets
   * them, with subscribes, appends and new epochs failing in any way: each epoch
   * starts at media time zero, its groups abut and are all of one feed, exactly
   * if no group the ledger took while reporting a failure is followed by another
   * in its epoch; and no epoch is zero.
   */
  lemma OneFeedPerEpochAlways(announcements: seq<Announcement>, timescale: nat)
    ensures
      var log := AfterAll(CREATED, announcements, timescale).log;
      && (WellTimed(log, timescale) <==> NoneBuried(log))
      && (NoneBuried(log) ==> OneFeedPerEpoch(log))
      && forall i :: 0 <= i < |log| ==> log[i].g.epoch > 0
  {
    var log := AfterAll(CREATED, announcements, timescale).log;
    AllKeep(CREATED, announcements, timescale);
    TimedExactlyWhen(log, timescale);
    if NoneBuried(log) {
      OneFeed(log, timescale);
    }
  }

  // ----- what a truthful ledger makes of it -----

  /** The ledger took no group of the round while reporting a failure. */
  predicate TruthfulRound(r: Round) {
    forall k :: 0 <= k < |r.arrivals| ==> !r.arrivals[k].append.FailedButTook?
  }

  predicate Truthful(rounds: seq<Round>) { forall k :: 0 <= k < |rounds| ==> TruthfulRound(rounds[k]) }

  ghost predicate AllTold(log: seq<Entry>) { forall i :: 0 <= i < |log| ==> log[i].told }

  lemma {:induction false} FedTold(arrivals: seq<Arrival>, epoch: nat, feed: nat, mediaTime: nat, anchor: Option<int>, timescale: nat)
    requires forall k :: 0 <= k < |arrivals| ==> !arrivals[k].append.FailedButTook?
    ensures AllTold(Fed(arrivals, epoch, feed, mediaTime, anchor, timescale))
    decreases |arrivals|
  {
    if arrivals != [] {
      var a := arrivals[0];
      var at := if anchor.Some? then anchor.value else a.now;
      FedTold(arrivals[1..], epoch, feed, mediaTime, anchor, timescale);
      FedTold(arrivals[1..], epoch, feed, mediaTime, Some(at), timescale);
      if a.measured.Some? {
        FedTold(arrivals[1..], epoch, feed, mediaTime + a.measured.value, Some(at), timescale);
      }
    }
  }

  lemma {:induction false} RoundsTold(l: Led, rounds: seq<Round>, close: Opening, timescale: nat)
    requires AllTold(l.log) && Truthful(rounds)
    ensures AllTold(AfterRounds(l, rounds, close, timescale).log)
    decreases |rounds|
  {
    if rounds != [] {
      var r, l1 := rounds[0], AfterFeed(l, rounds[0], timescale);
      assert TruthfulRound(r);
      FedTold(r.arrivals, l.epoch, l.feeds + 1, 0, None, timescale);
      assert AllTold(l1.log);
      hide AfterFeed, Told, TruthfulRound;
      RoundsTold(OpenEpoch(l1, r.close), rounds[1..], close, timescale);
      RoundsTold(l1, rounds[1..], close, timescale);
    }
  }

  lemma {:induction false} AnnouncementsTold(l: Led, announcements: seq<Announcement>, timescale: nat)
    requires AllTold(l.log) && forall k :: 0 <= k < |announcements| ==> Truthful(announcements[k].rounds)
    ensures AllTold(AfterAll(l, announcements, timescale).log)
    decreases |announcements|
  {
    if announcements != [] {
      var a := announcements[0];
      RoundsTold(if l.made then OpenEpoch(l, a.adopt) else l.(made := true), a.rounds, a.close, timescale);
      hide AfterRounds, Truthful;
      AnnouncementsTold(AfterAnnounce(l, a, timescale), announcements[1..], timescale);
    }
  }

  /** So it is always with a ledger that takes no group while reporting a failure. */
  lemma TruthfulLedgerIsWellTimed(announcements: seq<Announcement>, timescale: nat)
    requires forall k :: 0 <= k < |announcements| ==> Truthful(announcements[k].rounds)
    ensures
      var log := AfterAll(CREATED, announcements, timescale).log;
      WellTimed(log, timescale) && OneFeedPerEpoch(log)
  {
    AnnouncementsTold(CREATED, announcements, timescale);
    OneFeedPerEpochAlways(announcements, timescale);
  }

  lemma FedOne(a: Arrival, epoch: nat, feed: nat, timescale: nat)
    requires a.measured.Some? && !a.append.Refused?
    ensures Fed([a], epoch, feed, 0, None, timescale) ==
            [Entry(Group(epoch, 0, a.measured.value, WallclockAt(a.now, 0, timescale)), feed, a.now, a.append.Took?)]
  {
    assert forall t: nat :: Fed([], epoch, feed, t, Some(a.now), timescale) == [];
    assert [a][1..] == [];
  }

  /** And with any other it may not be: a feed that commits only such a group is followed by the next one in the same epoch. */
  lemma EpochOfTwoFeeds(d: Extent, now: int, timescale: nat)
    ensures
      var failing := Round(true, [Arrival(Some(d), now, FailedButTook)], false, Opened, false);
      var working := Round(true, [Arrival(Some(d), now, Took)], true, Opened, false);
      var log := AfterAll(CREATED, [Announcement(true, true, Opened, [failing, working], Opened)], timescale).log;
      |log| == 2 && log[0].g.epoch == log[1].g.epoch && log[0].feed != log[1].feed && log[0].g.mediaTime == log[1].g.mediaTime
  {
    var failing := Round(true, [Arrival(Some(d), now, FailedButTook)], false, Opened, false);
    var working := Round(true, [Arrival(Some(d), now, Took)], true, Opened, false);
    FedOne(failing.arrivals[0], 1, 1, timescale);
    FedOne(working.arrivals[0], 1, 2, timescale);
    var l0 := CREATED.(made := true);
    var l1 := AfterFeed(l0, failing, timescale);
    var l2 := AfterFeed(l1, working, timescale);
    hide Fed;
    assert |l1.log| == 1 && !l1.log[0].told && Told(l1.log[0..]) == 0;
    assert AfterRounds(l1, [working], Opened, timescale).log == l2.log;
    assert [failing, working][1..] == [working];
    assert AfterRounds(l0, [failing, working], Opened, timescale) == AfterRounds(l1, [working], Opened, timescale);
    var a := Announcement(true, true, Opened, [failing, working], Opened);
    assert [a][1..] == [];
    assert AfterAll(CREATED, [a], timescale) == AfterAnnounce(CREATED, a, timescale);
  }

  // ----- what arrived is what is committed -----

  /** The groups of a feed that could be measured and were committed, in order. */
  function Committed(arrivals: seq<Arrival>): seq<Arrival>
    decreases |arrivals|
  {
    if arrivals == [] then []
    else (if arrivals[0].measured.Some? && arrivals[0].append != Refused then [arrivals[0]] else []) + Committed(arrivals[1..])
  }

  /** How long the first n of them last together, of those the feed was told of. */
  function Elapsed(cs: seq<Arrival>, n: nat): nat
    requires n <= |cs|
  {
    if n == 0 then 0
    else Elapsed(cs, n - 1) + (if cs[n - 1].append == Took && cs[n - 1].measured.Some? then cs[n - 1].measured.value else 0)
  }

  /** The clock when the first group that could be measured landed, committed or not. */
  function Anchored(arrivals: seq<Arrival>): int
    decreases |arrivals|
  {
    if arrivals == [] then 0 else if arrivals[0].measured.Some? then arrivals[0].now else Anchored(arrivals[1..])
  }

  /** Entry e is arrival c, committed by the feed at mediaTime. */
  predicate IsEntry(e: Entry, c: Arrival, feed: nat, mediaTime: nat, anchor: int, timescale: nat) {
    && c.measured == Some(e.g.duration) && e.told == (c.append == Took)
    && e.g.mediaTime == mediaTime && e.feed == feed && e.anchor == anchor
    && e.g.wallclock - MediaOffset(mediaTime, timescale) == anchor
  }

  predicate EntryAt(log: seq<Entry>, cs: seq<Arrival>, i: nat, feed: nat, mediaTime: nat, anchor: int, timescale: nat)
    requires i < |log| == |cs|
  {
    IsEntry(log[i], cs[i], feed, mediaTime + Elapsed(cs, i), anchor, timescale)
  }

  ghost predicate AreEntries(log: seq<Entry>, cs: seq<Arrival>, feed: nat, mediaTime: nat, anchor: int, timescale: nat) {
    && |log| == |cs|
    && forall i: nat :: i < |log| ==> EntryAt(log, cs, i, feed, mediaTime, anchor, timescale)
  }

  lemma {:induction false} ElapsedFront(c: Arrival, cs: seq<Arrival>, n: nat)
    requires n <= |cs|
    ensures Elapsed([c] + cs, n + 1) == Elapsed([c], 1) + Elapsed(cs, n)
  {
    if n > 0 {
      ElapsedFront(c, cs, n - 1);
    }
  }

  lemma EntriesFront(e: Entry, log: seq<Entry>, c: Arrival, cs: seq<Arrival>, feed: nat, mediaTime: nat, anchor: int, timescale: nat)
    requires IsEntry(e, c, feed, mediaTime, anchor, timescale)
    requires AreEntries(log, cs, feed, mediaTime + Elapsed([c], 1), anchor, timescale)
    ensures AreEntries([e] + log, [c] + cs, feed, mediaTime, anchor, timescale)
  {
    forall i: nat | i < |[e] + log|
      ensures EntryAt([e] + log, [c] + cs, i, feed, mediaTime, anchor, timescale)
    {
      if i > 0 {
        ElapsedFront(c, cs, i - 1);
        assert EntryAt(log, cs, i - 1, feed, mediaTime + Elapsed([c], 1), anchor, timescale);
      }
      hide IsEntry;
    }
  }

  /**
   * What a feed commits corresponds, one to one and in order, to what arrived,
   * could be measured and was not refused: each for as long as it was measured to
   * last, at the sum of what the feed was told of before it, with the whole feed
   * anchored at one clock reading.
   */
  lemma {:induction false} FedIsWhatArrived(arrivals: seq<Arrival>, epoch: nat, feed: nat, mediaTime: nat, anchor: Option<int>, timescale: nat)
    ensures
      var log := Fed(arrivals, epoch, feed, mediaTime, anchor, timescale);
      && AreEntries(log, Committed(arrivals), feed, mediaTime, if anchor.Some? then anchor.value else Anchored(arrivals), timescale)
      && (forall i :: 0 <= i < |log| ==> log[i].g.epoch == epoch)
    decreases |arrivals|
  {
    if arrivals != [] {
      hide AreEntries;
      var a, rest := arrivals[0], arrivals[1..];
      var at := if anchor.Some? then anchor.value else a.now;
      assert a.measured.None? || a.append.Refused? ==> Committed(arrivals) == Committed(rest);
      if a.measured.None? {
        FedIsWhatArrived(rest, epoch, feed, mediaTime, anchor, timescale);
      } else if a.append.Refused? {
        FedIsWhatArrived(rest, epoch, feed, mediaTime, Some(at), timescale);
      } else {
        var next := if a.append.Took? then mediaTime + a.measured.value else mediaTime;
        FedIsWhatArrived(rest, epoch, feed, next, Some(at), timescale);
        assert Elapsed([a], 0) == 0;
        var e := Entry(Group(epoch, mediaTime, a.measured.value, WallclockAt(at, mediaTime, timescale)), feed, at, a.append.Took?);
        EntriesFront(e, Fed(rest, epoch, feed, next, Some(at), timescale), a, Committed(rest), feed, mediaTime, at, timescale);
      }
    }
  }

  function Yield(r: Round): seq<Arrival> { if r.subscribed then Committed(r.arrivals) else [] }

  /** The log is what the rounds committed, one after the other, by feeds numbered in turn. */
  ghost predicate Recorded(log: seq<Entry>, rounds: seq<Round>, feed: nat, timescale: nat)
    decreases |rounds|
  {
    if rounds == [] then log == []
    else
      var r, cs := rounds[0], Yield(rounds[0]);
      && |cs| <= |log|
      && AreEntries(log[..|cs|], cs, feed, 0, Anchored(r.arrivals), timescale)
      && Recorded(log[|cs|..], rounds[1..], feed + 1, timescale)
  }

  lemma {:induction false} RecordedMore(log: seq<Entry>, rounds: seq<Round>, feed: nat, part: seq<Entry>, r: Round, timescale: nat)
    requires Recorded(log, rounds, feed, timescale)
    requires |part| == |Yield(r)| && AreEntries(part, Yield(r), feed + |rounds|, 0, Anchored(r.arrivals), timescale)
    ensures Recorded(log + part, rounds + [r], feed, timescale)
    decreases |rounds|
  {
    hide AreEntries, Anchored, Yield;
    if rounds == [] {
      assert (rounds + [r])[1..] == [] && log + part == part;
      assert part[..|part|] == part && part[|part|..] == [];
      assert Recorded([], [], feed + 1, timescale);
    } else {
      var n := |Yield(rounds[0])|;
      RecordedMore(log[n..], rounds[1..], feed + 1, part, r, timescale);
      assert (rounds + [r])[1..] == rounds[1..] + [r];
      assert (log + part)[..n] == log[..n] && (log + part)[n..] == log[n..] + part;
    }
  }

  /** The feed was told of a group of the round. */
  predicate Commits(r: Round) {
    r.subscribed && exists k :: 0 <= k < |r.arrivals| && r.arrivals[k].measured.Some? && r.arrivals[k].append == Took
  }

  /** No round follows: the announcement ended, or the epoch of what was committed could not be closed. */
  predicate Stops(r: Round) { r.ended || r.endedWaiting || (Commits(r) && r.close != Opened) }

  /** The rounds that are run: up to the first that stops. */
  function Ran(rounds: seq<Round>): seq<Round>
    decreases |rounds|
  {
    if rounds == [] then [] else [rounds[0]] + (if Stops(rounds[0]) then [] else Ran(rounds[1..]))
  }

  /** And those of a run of announcements: of each whose track and writer opened, a track that was there before being adopted in a new epoch. */
  function RanAll(made: bool, announcements: seq<Announcement>): seq<Round>
    decreases |announcements|
  {
    if announcements == [] then []
    else
      var a := announcements[0];
      (if a.opens && a.writes && (made ==> a.adopt == Opened) then Ran(a.rounds) else [])
      + RanAll(made || a.opens, announcements[1..])
  }

  lemma {:induction false} ToldIs(arrivals: seq<Arrival>, epoch: nat, feed: nat, mediaTime: nat, anchor: Option<int>, timescale: nat)
    ensures Told(Fed(arrivals, epoch, feed, mediaTime, anchor, timescale)) > 0 <==>
            exists k :: 0 <= k < |arrivals| && arrivals[k].measured.Some? && arrivals[k].append == Took
    decreases |arrivals|
  {
    if arrivals != [] {
      var a := arrivals[0];
      var at := if anchor.Some? then anchor.value else a.now;
      var rest := arrivals[1..];
      assert forall k :: 0 < k < |arrivals| ==> arrivals[k] == rest[k - 1];
      ToldIs(rest, epoch, feed, mediaTime, anchor, timescale);
      ToldIs(rest, epoch, feed, mediaTime, Some(at), timescale);
      if a.measured.Some? {
        ToldIs(rest, epoch, feed, mediaTime + a.measured.value, Some(at), timescale);
      }
      assert (exists k :: 0 <= k < |arrivals| && arrivals[k].measured.Some? && arrivals[k].append == Took) <==>
             (a.measured.Some? && a.append == Took) || exists k :: 0 <= k < |rest| && rest[k].measured.Some? && rest[k].append == Took by {
        if k :| 0 <= k < |rest| && rest[k].measured.Some? && rest[k].append == Took {
          assert arrivals[k + 1] == rest[k];
        }
      }
    }
  }

  /** What a round adds. */
  lemma RoundAdds(l: Led, r: Round, timescale: nat)
    ensures
      var l1 := AfterFeed(l, r, timescale);
      && l.log <= l1.log && l1.feeds == l.feeds + 1
      && |l1.log[|l.log|..]| == |Yield(r)|
      && AreEntries(l1.log[|l.log|..], Yield(r), l.feeds + 1, 0, Anchored(r.arrivals), timescale)
      && (Told(l1.log[|l.log|..]) > 0 <==> Commits(r))
  {
    var fed := Fed(r.arrivals, l.epoch, l.feeds + 1, 0, None, timescale);
    FedIsWhatArrived(r.arrivals, l.epoch, l.feeds + 1, 0, None, timescale);
    ToldIs(r.arrivals, l.epoch, l.feeds + 1, 0, None, timescale);
    assert (l.log + fed)[|l.log|..] == fed;
    assert (l.log + [])[|l.log|..] == [];
    hide Fed, Committed;
  }

  lemma {:induction false} RoundsRecorded(l: Led, done: seq<Round>, rounds: seq<Round>, close: Opening, timescale: nat)
    requires Recorded(l.log, done, 1, timescale) && l.feeds == |done|
    ensures
      var l' := AfterRounds(l, rounds, close, timescale);
      Recorded(l'.log, done + Ran(rounds), 1, timescale) && l'.feeds == |done + Ran(rounds)|
    decreases |rounds|
  {
    hide Recorded, AreEntries, AfterFeed, Told, Commits, Yield, Anchored;
    if rounds == [] {
      assert done + [] == done;
    } else {
      var r, l1 := rounds[0], AfterFeed(l, rounds[0], timescale);
      RoundAdds(l, r, timescale);
      RecordedMore(l.log, done, 1, l1.log[|l.log|..], r, timescale);
      assert l.log + l1.log[|l.log|..] == l1.log;
      RoundsRecorded(OpenEpoch(l1, r.close), done + [r], rounds[1..], close, timescale);
      RoundsRecorded(l1, done + [r], rounds[1..], close, timescale);
      assert done + [r] + Ran(rounds[1..]) == done + ([r] + Ran(rounds[1..]));
      assert done + ([r] + []) == done + [r];
    }
  }

  lemma {:induction false} AnnouncementsRecorded(l: Led, done: seq<Round>, announcements: seq<Announcement>, timescale: nat)
    requires Recorded(l.log, done, 1, timescale) && l.feeds == |done|
    ensures Recorded(AfterAll(l, announcements, timescale).log, done + RanAll(l.made, announcements), 1, timescale)
    decreases |announcements|
  {
    hide Recorded, AfterRounds, Ran;
    if announcements == [] {
      assert done + [] == done;
    } else {
      var a, rest := announcements[0], announcements[1..];
      var l1 := AfterAnnounce(l, a, timescale);
      RoundsRecorded(if l.made then OpenEpoch(l, a.adopt) else l.(made := true), done, a.rounds, a.close, timescale);
      RoundsMade(if l.made then OpenEpoch(l, a.adopt) else l.(made := true), a.rounds, a.close, timescale);
      var ran := if a.opens && a.writes && (l.made ==> a.adopt == Opened) then Ran(a.rounds) else [];
      assert done + [] == done;
      AnnouncementsRecorded(l1, done + ran, rest, timescale);
      assert done + ran + RanAll(l1.made, rest) == done + (ran + RanAll(l1.made, rest));
    }
  }

  lemma {:induction false} RoundsMade(l: Led, rounds: seq<Round>, close: Opening, timescale: nat)
    ensures AfterRounds(l, rounds, close, timescale).made == l.made
    decreases |rounds|
  {
    if rounds != [] {
      var l1 := AfterFeed(l, rounds[0], timescale);
      hide AfterFeed, Told;
      FeedMade(l, rounds[0], timescale);
      RoundsMade(OpenEpoch(l1, rounds[0].close), rounds[1..], close, timescale);
      RoundsMade(l1, rounds[1..], close, timescale);
    }
  }

  /** Over any run of announcements the ledger holds exactly what arrived in the rounds that were run, was measured and was not refused, each once and in order. */
  lemma EverythingIsCommitted(announcements: seq<Announcement>, timescale: nat)
    ensures Recorded(AfterAll(CREATED, announcements, timescale).log, RanAll(false, announcements), 1, timescale)
  {
    AnnouncementsRecorded(CREATED, [], announcements, timescale);
    assert [] + RanAll(false, announcements) == RanAll(false, announcements);
  }

  // ----- when epochs open -----

  /** Feeds that commit nothing they are told of open no epoch. */
  lemma {:induction false} SilentFeedsOpenNone(l: Led, rounds: seq<Round>, close: Opening, timescale: nat)
    requires forall k :: 0 <= k < |rounds| ==> !Commits(rounds[k])
    ensures AfterRounds(l, rounds, close, timescale).epoch == l.epoch
    decreases |rounds|
  {
    if rounds != [] {
      RoundAdds(l, rounds[0], timescale);
      hide Commits, Told, AreEntries;
      SilentFeedsOpenNone(AfterFeed(l, rounds[0], timescale), rounds[1..], close, timescale);
    }
  }

  /** When a track's feeding is over its epoch is closed, if the last close works: nothing it was told of is in the epoch then. */
  lemma {:induction false} ClosedOnReturn(l: Led, rounds: seq<Round>, close: Opening, timescale: nat)
    requires LedOk(l, timescale) && l.made && Untold(l) && close == Opened
    ensures Untold(AfterRounds(l, rounds, close, timescale))
    decreases |rounds|
  {
    hide LedOk, AfterFeed, Told;
    if rounds != [] {
      var r, l1 := rounds[0], AfterFeed(l, rounds[0], timescale);
      FeedKeeps(l, r, timescale);
      FeedMade(l, r, timescale);
      OpenKeeps(l1, close, timescale);
      OpenKeeps(l1, r.close, timescale);
      OpenKeeps(OpenEpoch(l1, r.close), close, timescale);
      hide Empty;
      if Told(l1.log[|l.log|..]) > 0 {
        if !r.ended && r.close.Opened? && !r.endedWaiting {
          ClosedOnReturn(OpenEpoch(l1, r.close), rounds[1..], close, timescale);
        }
      } else if !r.ended && !r.endedWaiting {
        ClosedOnReturn(l1, rounds[1..], close, timescale);
      }
    }
  }

  // ----- the loops of the source -----

  /** A ledger track and its writer. */
  class Track {
    const timescale: nat
    var made: bool
    var epoch: nat
    var log: seq<Entry>
    var feeds: nat

    constructor (timescale: nat)
      ensures State() == CREATED && this.timescale == timescale
    {
      this.timescale := timescale;
      made, epoch, log, feeds := false, 1, [], 0;
    }

    ghost function State(): Led
      reads this
    {
      Led(made, epoch, log, feeds)
    }

    method NewEpoch(how: Opening) returns (ok: bool)
      modifies this`epoch
      ensures State() == OpenEpoch(old(State()), how) && ok == how.Opened?
    {
      if how.Failed? {
        return false;
      }
      epoch := epoch + 1;
      return how.Opened?;
    }

    /** feedMedia: the media time advances by what was committed, and the clock is read once, when the first group lands. */
    method FeedMedia(r: Round) returns (appended: nat)
      modifies this`log, this`feeds
      ensures State() == AfterFeed(old(State()), r, timescale)
      ensures appended == Told(log[|old(log)|..])
    {
      hide WallclockAt;
      feeds := feeds + 1;
      appended := 0;
      if !r.subscribed {
        assert log + [] == log;
        return;
      }
      var mediaTime: nat := 0;
      var anchor: Option<int> := None;
      assert r.arrivals[0..] == r.arrivals;
      for k := 0 to |r.arrivals|
        invariant feeds == old(feeds) + 1 && |old(log)| <= |log| && appended == Told(log[|old(log)|..])
        invariant log + Fed(r.arrivals[k..], epoch, feeds, mediaTime, anchor, timescale)
               == old(log) + Fed(r.arrivals, epoch, feeds, 0, None, timescale)
      {
        var a := r.arrivals[k];
        assert r.arrivals[k..][0] == a && r.arrivals[k..][1..] == r.arrivals[k + 1..];
        if a.measured.None? {
          continue;
        }
        if anchor.None? {
          anchor := Some(a.now);
        }
        if a.append.Refused? {
          continue;
        }
        var g := Group(epoch, mediaTime, a.measured.value, WallclockAt(anchor.value, mediaTime, timescale));
        var e := Entry(g, feeds, anchor.value, a.append.Took?);
        ghost var next := if a.append.Took? then mediaTime + a.measured.value else mediaTime;
        ghost var rest := Fed(r.arrivals[k + 1..], epoch, feeds, next, anchor, timescale);
        assert log + ([e] + rest) == log + [e] + rest;
        ToldSnoc(log[|old(log)|..], e);
        assert (log + [e])[|old(log)|..] == log[|old(log)|..] + [e];
        log := log + [e];
        if a.append.FailedButTook? {
          continue;
        }
        appended := appended + 1;
        mediaTime := mediaTime + a.measured.value;
      }
      assert log + [] == log;
    }

    /** feedAnnouncedTrack: feed again while announced, closing the epoch after every feed that committed groups. */
    method FeedAnnounced(rounds: seq<Round>, close: Opening)
      modifies this`log, this`feeds, this`epoch
      ensures State() == AfterRounds(old(State()), rounds, close, timescale)
    {
      hide AfterFeed;
      var filled := false;
      assert rounds[0..] == rounds;
      for k := 0 to |rounds|
        invariant made == old(made) && !filled
        invariant AfterRounds(State(), rounds[k..], close, timescale) == AfterRounds(old(State()), rounds, close, timescale)
      {
        assert rounds[k..][0] == rounds[k] && rounds[k..][1..] == rounds[k + 1..];
        var appended := FeedMedia(rounds[k]);
        filled := filled || appended > 0;
        if rounds[k].ended {
          if filled {
            var _ := NewEpoch(close);
          }
          return;
        }
        if filled {
          var ok := NewEpoch(rounds[k].close);
          if !ok {
            var _ := NewEpoch(close);
            return;
          }
          filled := false;
        }
        if rounds[k].endedWaiting {
          return;
        }
      }
    }

    /** One announcement's turn at the track: a track that exists is adopted, in a new epoch or not at all. */
    method Announce(a: Announcement)
      modifies this
      ensures State() == AfterAnnounce(old(State()), a, timescale)
    {
      if !a.opens {
        return;
      }
      var adopted := made;
      made := true;
      if !a.writes {
        return;
      }
      if adopted {
        var ok := NewEpoch(a.adopt);
        if !ok {
          return;
        }
      }
      FeedAnnounced(a.rounds, a.close);
    }
  }

  lemma {:induction false} ToldSnoc(log: seq<Entry>, e: Entry)
    ensures Told(log + [e]) == Told(log) + (if e.told then 1 else 0)
    decreases |log|
  {
    if log == [] {
      assert log + [e] == [e];
    } else {
      ToldSnoc(log[1..], e);
      assert (log + [e])[1..] == log[1..] + [e];
    }
  }

  ghost predicate OneFeedPerEpoch(log: seq<Entry>) {
    forall i, j :: 0 <= i < j < |log| && log[i].g.epoch == log[j].g.epoch ==> log[i].feed == log[j].feed
  }

  /** Groups of one epoch share feed and anchor, and are apart by what lies between them. */
  lemma {:induction false} SameEpoch(log: seq<Entry>, timescale: nat, i: nat, j: nat)
    requires WellTimed(log, timescale) && i <= j < |log|
    ensures log[i].g.epoch <= log[j].g.epoch
    ensures log[i].g.epoch == log[j].g.epoch ==> log[i].feed == log[j].feed && log[i].anchor == log[j].anchor
    decreases j
  {
    if i < j {
      SameEpoch(log, timescale, i, j - 1);
      assert Follows(log, j, timescale);
    }
  }

  lemma OneFeed(log: seq<Entry>, timescale: nat)
    requires WellTimed(log, timescale)
    ensures OneFeedPerEpoch(log)
  {
    forall i, j | 0 <= i < j < |log| && log[i].g.epoch == log[j].g.epoch
      ensures log[i].feed == log[j].feed
    {
      SameEpoch(log, timescale, i, j);
    }
  }
}
