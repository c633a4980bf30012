/** What holds of the usage reports over every run. */
module UsageTheorems {
  import opened Prelude
  import opened Usage
  import opened UsageOrder
  import opened UsageRuns

  // ----- no open or close disappears unaccounted for -----

  lemma OnlySnoc(k: Kind, s: seq<Record>, r: Record)
    ensures Only(k, s + [r]) == Only(k, s) + (if k.Has(r) then [r] else [])
  {
  }

  lemma {:induction false} OnlyConcat(k: Kind, a: seq<Record>, b: seq<Record>)
    ensures Only(k, a + b) == Only(k, a) + Only(k, b)
    decreases |b|
  {
    hide *;
    if b == [] {
      assert a + b == a;
      OnlyNone(k);
      assert Only(k, a) + [] == Only(k, a);
    } else {
      var init, last := b[..|b| - 1], b[|b| - 1];
      assert b == init + [last];
      assert a + b == (a + init) + [last];
      OnlyConcat(k, a, init);
      OnlySnoc(k, init, last);
      OnlySnoc(k, a + init, last);
      var tail := if k.Has(last) then [last] else [];
      assert Only(k, a) + Only(k, init) + tail == Only(k, a) + (Only(k, init) + tail);
    }
  }

  lemma OnlyNone(k: Kind)
    ensures Only(k, []) == []
  {
  }

  /** A filter that keeps everything, or nothing. */
  lemma {:induction false} OnlyAll(s: seq<Record>)
    ensures (forall i :: 0 <= i < |s| ==> IsEvent(s[i])) ==> Only(Events, s) == s
    ensures (forall i :: 0 <= i < |s| ==> !IsEvent(s[i])) ==> Only(Events, s) == []
    decreases |s|
  {
    hide Only, IsEvent;
    if s == [] {
      OnlyNone(Events);
    } else {
      var init, last := s[..|s| - 1], s[|s| - 1];
      assert s == init + [last];
      OnlyAll(init);
      OnlySnoc(Events, init, last);
    }
  }

  /** The queue is its opens and its closes. */
  lemma {:induction false} OpensAndCloses(s: seq<Record>)
    requires forall i :: 0 <= i < |s| ==> IsEvent(s[i])
    ensures multiset(Only(Opens, s)) + multiset(Only(Closes, s)) == multiset(s)
    decreases |s|
  {
    if s != [] {
      var init, last := s[..|s| - 1], s[|s| - 1];
      assert s == init + [last];
      OpensAndCloses(init);
    }
  }

  lemma OutgoingEvents(r: Reporter, ids: seq<string>, kids: seq<string>)
    requires Lists(ids, r.latest.Keys) && Lists(kids, Totals(r).Keys)
    requires forall k :: k in r.latest ==> r.latest[k].UsageSoFar?
    requires forall i :: 0 <= i < |r.events| ==> IsEvent(r.events[i])
    ensures multiset(Only(Events, Outgoing(r, ids, kids))) == multiset(r.events)
  {
    var os, us, vs, cs := Only(Opens, r.events), LatestIn(r.latest, ids), ViewersIn(Totals(r), kids), Only(Closes, r.events);
    OnlyKinds(r.events);
    assert forall i :: 0 <= i < |us| ==> us[i].UsageSoFar?;
    OpensAndCloses(r.events);
    hide Only, LatestIn, ViewersIn, Totals, Lists;
    LayoutEvents(os, us, vs, cs);
    OutgoingIs(r, ids, kids);
  }

  lemma LayoutEvents(os: seq<Record>, us: seq<Record>, vs: seq<Record>, cs: seq<Record>)
    requires forall i :: 0 <= i < |os| ==> os[i].SessionOpen?
    requires forall i :: 0 <= i < |us| ==> us[i].UsageSoFar?
    requires forall i :: 0 <= i < |vs| ==> vs[i].Viewers?
    requires forall i :: 0 <= i < |cs| ==> cs[i].SessionClose?
    ensures multiset(Only(Events, os + us + vs + cs)) == multiset(os) + multiset(cs)
  {
    OnlyAll(os);
    OnlyAll(us);
    OnlyAll(vs);
    OnlyAll(cs);
    assert Only(Events, os) == os && Only(Events, cs) == cs && Only(Events, us) == [] && Only(Events, vs) == [];
    hide *;
    OnlyConcat(Events, os + us + vs, cs);
    OnlyConcat(Events, os + us, vs);
    OnlyConcat(Events, os, us);
    assert os + [] == os;
  }

  lemma OutgoingIs(r: Reporter, ids: seq<string>, kids: seq<string>)
    requires Lists(ids, r.latest.Keys) && Lists(kids, Totals(r).Keys)
    ensures Outgoing(r, ids, kids) == Only(Opens, r.events) + LatestIn(r.latest, ids) + ViewersIn(Totals(r), kids) + Only(Closes, r.events)
  {
  }

  lemma Cut(q: seq<Record>)
    ensures multiset(q[..Overflow(q)]) + multiset(Capped(q)) == multiset(q)
  {
    assert q == q[..Overflow(q)] + q[Overflow(q)..];
  }

  lemma PlacedQueued(w: World, w': World, rec: Record)
    requires PlacedOk(w)
    requires w'.acked == w.acked && w'.refused == w.refused && w'.flight == w.flight
    requires w'.r.events == Capped(w.r.events + [rec]) && w'.emitted == w.emitted + [rec]
    requires w'.lost == w.lost + (w.r.events + [rec])[..Overflow(w.r.events + [rec])]
    ensures PlacedOk(w')
  {
    var q := w.r.events + [rec];
    Cut(q);
    Moved(multiset(Only(Events, w.acked)), multiset(Only(Events, w.refused)), multiset(Only(Events, w.flight)),
          multiset(w.r.events), multiset(w.lost), multiset(Capped(q)), multiset(q[..Overflow(q)]), multiset{rec});
    hide Only, Capped, Overflow;
  }

  /** Adding one record to the queue and cutting off its front moves records from the queue to those lost. */
  lemma Moved(a: multiset<Record>, r: multiset<Record>, f: multiset<Record>, e: multiset<Record>, l: multiset<Record>,
              kept: multiset<Record>, cut: multiset<Record>, added: multiset<Record>)
    requires cut + kept == e + added
    ensures a + r + f + kept + (l + cut) == a + r + f + e + l + added
  {
    forall x: Record
      ensures (a + r + f + kept + (l + cut))[x] == (a + r + f + e + l + added)[x]
    {
      assert (cut + kept)[x] == (e + added)[x];
    }
  }

  lemma PlacedFrame(w: World, w': World)
    requires PlacedOk(w) && w'.acked == w.acked && w'.refused == w.refused && w'.flight == w.flight
    requires w'.r.events == w.r.events && w'.emitted == w.emitted && w'.lost == w.lost
    ensures PlacedOk(w')
  {
  }

  lemma PlacedRecord(w: World, e: Event)
    requires PlacedOk(w) && Enabled(w, e) && !e.Snapshot? && !e.Send?
    ensures PlacedOk(Apply(w, e))
  {
    hide PlacedOk, Capped, Counting, Metrics;
    var w' := Apply(w, e);
    if e.Open? && e.id !in w.r.closed && e.publishes {
      PlacedQueued(w, w', SessionOpen(e.id, e.kid));
    } else if e.Publish? && e.id in w.r.sessions && !w.r.sessions[e.id].publishes {
      PlacedQueued(w, w', SessionOpen(e.id, w.r.sessions[e.id].kid));
    } else if e.Close? && e.id in w.r.sessions && w.r.sessions[e.id].publishes {
      PlacedQueued(w, w', SessionClose(e.id, w.r.sessions[e.id].kid, Metrics(e.b.Since(w.r.sessions[e.id].counted)), e.reason));
    } else {
      PlacedFrame(w, w');
    }
  }

  lemma PlacedSnapshot(w: World, ids: seq<string>, kids: seq<string>)
    requires PlacedOk(w) && Ordered(w) && Enabled(w, Snapshot(ids, kids))
    ensures PlacedOk(AfterSnapshot(w, ids, kids))
  {
    LatestShape(w);
    assert Only(Events, w.flight) == [];
    hide Sorted, AllRel, LatestOk, Totals, Outgoing, Only;
    OutgoingEvents(w.r, ids, kids);
  }

  lemma PlacedBatch(w: World, outcome: Outcome)
    requires PlacedOk(w) && !outcome.Unsent?
    ensures PlacedOk(AfterSend(w, outcome))
  {
    var n := BatchSize(w);
    var batch, rest := w.flight[..n], w.flight[n..];
    assert w.flight == batch + rest;
    OnlyConcat(Events, batch, rest);
    OnlyConcat(Events, w.acked, batch);
    OnlyConcat(Events, w.refused, batch);
    AcknowledgedRest(w.r, batch, w.totals);
    hide Only, Acknowledged;
    var a, r, b, f := Only(Events, w.acked), Only(Events, w.refused), Only(Events, batch), Only(Events, rest);
    assert multiset(b + f) == multiset(b) + multiset(f);
    assert multiset(a + b) == multiset(a) + multiset(b);
    assert multiset(r + b) == multiset(r) + multiset(b);
    SentOn(multiset(a), multiset(r), multiset(b), multiset(f), multiset(w.r.events), multiset(w.lost));
  }

  lemma SentOn(a: multiset<Record>, r: multiset<Record>, b: multiset<Record>, f: multiset<Record>, e: multiset<Record>, l: multiset<Record>)
    ensures (a + b) + r + f + e + l == a + r + (b + f) + e + l
    ensures a + (r + b) + f + e + l == a + r + (b + f) + e + l
  {
  }

  lemma PlacedSend(w: World, outcome: Outcome)
    requires PlacedOk(w)
    ensures PlacedOk(AfterSend(w, outcome))
  {
    if !outcome.Unsent? {
      PlacedBatch(w, outcome);
    } else {
      OnlyNone(Events);
      var q := Only(Events, w.flight) + w.r.events;
      Cut(q);
      hide Only, Capped, Overflow, PutBack;
      assert multiset(q) == multiset(Only(Events, w.flight)) + multiset(w.r.events);
      Back(multiset(Only(Events, w.acked)), multiset(Only(Events, w.refused)), multiset(Only(Events, w.flight)),
           multiset(w.r.events), multiset(w.lost), multiset(Capped(q)), multiset(q[..Overflow(q)]));
    }
  }

  /** Putting the unsent back in front of the queue and cutting off its front. */
  lemma Back(a: multiset<Record>, r: multiset<Record>, f: multiset<Record>, e: multiset<Record>, l: multiset<Record>,
             kept: multiset<Record>, cut: multiset<Record>)
    requires cut + kept == f + e
    ensures a + r + multiset{} + kept + (l + cut) == a + r + f + e + l
  {
    forall x: Record
      ensures (a + r + multiset{} + kept + (l + cut))[x] == (a + r + f + e + l)[x]
    {
      assert (cut + kept)[x] == (f + e)[x];
    }
  }

  // ----- all together -----

  lemma ApplyInv(w: World, e: Event)
    requires Inv(w) && Enabled(w, e)
    ensures Inv(Apply(w, e))
  {
    hide Ordered, LiveOk, ViewersOk, PlacedOk, Enabled, AfterOpen, AfterPublish, AfterRevalidate, AfterClose, AfterSnapshot, AfterSend, Forgotten;
    if e.Snapshot? {
      SnapshotEnabled(w, e);
      SnapshotOrdered(w, e.ids, e.kids);
      SnapshotLive(w, e.ids, e.kids);
      SnapshotViewers(w, e.ids, e.kids);
      PlacedSnapshot(w, e.ids, e.kids);
    } else if e.Send? {
      SendOrdered(w, e.outcome);
      SendLive(w, e.outcome);
      SendViewers(w, e.outcome);
      PlacedSend(w, e.outcome);
    } else {
      RecordViewers(w, e);
      PlacedRecord(w, e);
      RecordKeeps(w, e);
    }
  }

  lemma SnapshotEnabled(w: World, e: Event)
    requires Enabled(w, e) && e.Snapshot?
    ensures forall i :: 0 <= i < |e.ids| ==> e.ids[i] in w.r.latest
    ensures forall i :: 0 <= i < |e.kids| ==> e.kids[i] in Totals(w.r)
  {
  }

  lemma RecordKeeps(w: World, e: Event)
    requires Ordered(w) && LiveOk(w) && Enabled(w, e) && !e.Snapshot? && !e.Send?
    ensures Ordered(Apply(w, e)) && LiveOk(Apply(w, e))
  {
    hide Ordered, LiveOk, AfterOpen, AfterPublish, AfterRevalidate, AfterClose, Forgotten;
    match e
    case Open(id, kid, publishes, now) => OpenKeeps(w, id, kid, publishes, now);
    case Publish(id) => PublishKeeps(w, id);
    case Revalidate(id, b, live, now) =>
      RevalidateOrdered(w, id, b, live, now);
      RevalidateLive(w, id, b, live, now);
    case Close(id, b, reason, now) =>
      CloseOrdered(w, id, b, reason, now);
      CloseLive(w, id, b, reason, now);
    case Forget(now) => ForgetKeeps(w, now);
    case Snapshot(_, _) =>
    case Send(_) =>
  }

  lemma {:induction false} RunInv(w: World, es: seq<Event>, w': World)
    requires Inv(w) && Runs(w, es, w')
    ensures Inv(w')
    decreases |es|
  {
    hide Inv, Apply, Enabled;
    if es != [] {
      ApplyInv(w, es[0]);
      RunInv(Apply(w, es[0]), es[1..], w');
    }
  }

  lemma ReachedInv(es: seq<Event>, w: World)
    requires Runs(START, es, w)
    ensures Inv(w)
  {
    hide *;
    StartInv();
    RunInv(START, es, w);
  }

  /**
   * Whatever fails and whatever is recorded meanwhile, the records the receiver
   * accepted of a session come open first, then usage, then close, at most one
   * open and one close, with totals never decreasing; and a key's viewer totals
   * never decrease.
   */
  lemma DeliveredInOrder(es: seq<Event>, w: World, i: nat, j: nat)
    requires Runs(START, es, w) && i < j < |w.acked|
    ensures
      var a, b := w.acked[i], w.acked[j];
      && (!a.Viewers? && !b.Viewers? && a.id == b.id ==>
            && !b.SessionOpen? && !a.SessionClose?
            && (!a.SessionOpen? ==> a.metrics.sent <= b.metrics.sent && a.metrics.received <= b.metrics.received))
      && (a.Viewers? && b.Viewers? && a.kid == b.kid ==>
            a.metrics.sent <= b.metrics.sent && a.metrics.received <= b.metrics.received)
  {
    ReachedInv(es, w);
    hide Runs, LiveOk, ViewersOk, PlacedOk, LatestOk, AllRel;
    assert Rel(w.acked[i], w.acked[j]);
  }

  /**
   * Every open and close ever recorded was accepted, refused as malformed, is
   * being sent, waits, or was dropped by the cap, each exactly once; and no more
   * than the cap ever wait.
   */
  lemma EveryEventAccountedFor(es: seq<Event>, w: World)
    requires Runs(START, es, w)
    ensures multiset(w.emitted) ==
      multiset(Only(Events, w.acked)) + multiset(Only(Events, w.refused)) + multiset(Only(Events, w.flight))
      + multiset(w.r.events) + multiset(w.lost)
    ensures |w.r.events| <= MAX_PENDING
  {
    ReachedInv(es, w);
    hide Runs;
  }

  /** A viewer total counts as settled only if a record of exactly that total was accepted, or refused as malformed; any other is in the next snapshot. */
  lemma SettledWasSent(es: seq<Event>, w: World, kid: string)
    requires Runs(START, es, w) && kid in w.r.viewers
    ensures w.r.viewers[kid].Settled() ==>
              var total := w.r.viewers[kid].total;
              Viewers(kid, Bytes(Min(total.sent, MAX_INT64), Min(total.received, MAX_INT64))) in w.acked + w.refused
    ensures !w.r.viewers[kid].Settled() <==> kid in Totals(w.r)
  {
    ReachedInv(es, w);
    hide Runs, Ordered, LiveOk, PlacedOk;
  }

  /** What an answer makes of one viewer total: reported as it was taken if the batch named it, and as it was otherwise. */
  lemma AnswerAt(r: Reporter, batch: seq<Record>, totals: map<string, Bytes>, kid: string)
    requires kid in r.viewers
    ensures
      var v, v' := r.viewers[kid], Acknowledged(r, batch, totals).viewers;
      && kid in v' && v'[kid].total == v.total
      && (Names(batch, kid) && kid in totals ==> (v'[kid].Settled() <==> v.total == totals[kid]))
      && (!Names(batch, kid) ==> v'[kid] == v)
  {
    hide Names;
  }

  lemma NamedIsTaken(w: World, kid: string)
    requires ViewersOk(w) && Names(w.flight[..BatchSize(w)], kid)
    ensures kid in w.totals
  {
    var batch := w.flight[..BatchSize(w)];
    var i :| 0 <= i < |batch| && batch[i].Viewers? && batch[i].kid == kid;
    assert batch[i] in w.flight;
  }

  /** A batch that was answered settles every viewer total it carried that has not changed since it was taken, and no other. */
  lemma AnsweredIsSettled(es: seq<Event>, w: World, outcome: Outcome, kid: string)
    requires Runs(START, es, w) && w.flight != [] && outcome != Unsent && kid in w.r.viewers
    ensures
      var v, v' := w.r.viewers[kid], Apply(w, Send(outcome)).r.viewers;
      var carried := exists x :: x in w.flight[..Min(500, |w.flight|)] && x.Viewers? && x.kid == kid;
      && kid in v' && v'[kid].total == v.total
      && (carried ==> kid in w.totals && (v'[kid].Settled() <==> v.total == w.totals[kid]))
      && (!carried ==> v'[kid] == v)
  {
    NamesMeans(w.flight[..Min(500, |w.flight|)], kid);
    hide *;
    ReachedInv(es, w);
    AnsweredFromInv(w, outcome, kid);
  }

  lemma NamesMeans(batch: seq<Record>, kid: string)
    ensures Names(batch, kid) <==> exists x :: x in batch && x.Viewers? && x.kid == kid
  {
    if x :| x in batch && x.Viewers? && x.kid == kid {
      var i :| 0 <= i < |batch| && batch[i] == x;
      assert Names(batch, kid);
    }
  }

  lemma AnsweredFromInv(w: World, outcome: Outcome, kid: string)
    requires Inv(w) && w.flight != [] && outcome != Unsent && kid in w.r.viewers
    ensures
      var v, v', carried := w.r.viewers[kid], Apply(w, Send(outcome)).r.viewers, Names(w.flight[..Min(500, |w.flight|)], kid);
      && kid in v' && v'[kid].total == v.total
      && (carried ==> kid in w.totals && (v'[kid].Settled() <==> v.total == w.totals[kid]))
      && (!carried ==> v'[kid] == v)
  {
    AnswerAt(w.r, w.flight[..BatchSize(w)], w.totals, kid);
    if Names(w.flight[..BatchSize(w)], kid) {
      NamedIsTaken(w, kid);
    }
    hide Inv, Names, Acknowledged, Requeued, Viewer.Settled;
  }

  /** Counting a viewer changes its key's total alone, which grows by what moved and keeps what was reported of it. */
  lemma CountingExact(r: Reporter, s: Session, b: Bytes, kid: string)
    ensures
      var v' := Counting(r, s, b);
      && (kid in r.viewers && kid != s.kid ==> kid in v' && v'[kid] == r.viewers[kid])
      && (kid in r.viewers && kid == s.kid ==>
            && kid in v' && v'[kid].reported == r.viewers[kid].reported && v'[kid].sent == r.viewers[kid].sent
            && v'[kid].total.sent == r.viewers[kid].total.sent + (if b.sent > s.counted.sent then b.sent - s.counted.sent else 0)
            && v'[kid].total.received == r.viewers[kid].total.received + (if b.received > s.counted.received then b.received - s.counted.received else 0))
  {
  }

  /** Whatever is recorded, a settled total stays settled until it grows, which it only ever does. */
  lemma SettledUntilItGrows(w: World, e: Event, kid: string)
    requires Enabled(w, e) && !e.Snapshot? && !e.Send? && kid in w.r.viewers
    ensures
      var v, v' := w.r.viewers[kid], Apply(w, e).r.viewers;
      && kid in v' && v.total.sent <= v'[kid].total.sent && v.total.received <= v'[kid].total.received
      && (v.Settled() && v'[kid].total == v.total ==> v'[kid].Settled())
  {
    if (e.Revalidate? || e.Close?) && e.id in w.r.sessions {
      var s := w.r.sessions[e.id];
      CountingExact(w.r, s, e.b, kid);
      CountingExact(w.r, s.(seen := if e.Revalidate? && e.live then e.now else s.seen), e.b, kid);
    }
    hide Counting, Capped, Metrics;
  }

  /** A flush takes all there is to send: every open and close, every report, and every viewer total not settled, each direction as it stands. */
  lemma SnapshotTakesEverything(w: World, ids: seq<string>, kids: seq<string>)
    requires Ordered(w) && Enabled(w, Snapshot(ids, kids))
    ensures
      var flight := AfterSnapshot(w, ids, kids).flight;
      && (forall x :: x in w.r.events ==> x in flight)
      && (forall id :: id in w.r.latest ==> w.r.latest[id] in flight)
      && (forall kid :: kid in w.r.viewers && !w.r.viewers[kid].Settled() ==>
            var total := w.r.viewers[kid].total;
            Viewers(kid, Bytes(Min(total.sent, MAX_INT64), Min(total.received, MAX_INT64))) in flight)
  {
    OutgoingIs(w.r, ids, kids);
    var os, us, vs, cs := Only(Opens, w.r.events), LatestIn(w.r.latest, ids), ViewersIn(Totals(w.r), kids), Only(Closes, w.r.events);
    forall x | x in w.r.events
      ensures x in os + us + vs + cs
    {
      OnlyHas(w.r.events, x);
    }
    forall id | id in w.r.latest
      ensures w.r.latest[id] in os + us + vs + cs
    {
      var i :| 0 <= i < |ids| && ids[i] == id;
      assert us[i] == w.r.latest[id];
    }
    forall kid | kid in w.r.viewers && !w.r.viewers[kid].Settled()
      ensures
        var total := w.r.viewers[kid].total;
        Viewers(kid, Bytes(Min(total.sent, MAX_INT64), Min(total.received, MAX_INT64))) in os + us + vs + cs
    {
      assert kid in Totals(w.r);
      var i :| 0 <= i < |kids| && kids[i] == kid;
      assert vs[i] == Viewers(kid, Metrics(Totals(w.r)[kid]));
    }
  }

  lemma {:induction false} OnlyHas(s: seq<Record>, x: Record)
    requires x in s && IsEvent(x)
    ensures x in Only(Opens, s) || x in Only(Closes, s)
    decreases |s|
  {
    var n := |s| - 1;
    if x != s[n] {
      assert x in s[..n];
      OnlyHas(s[..n], x);
    }
  }

  /** What the cap leaves of a queue is its newest part, and as much as the cap allows. */
  lemma CapExact(q: seq<Record>)
    ensures q[..Overflow(q)] + Capped(q) == q
    ensures Overflow(q) > 0 ==> |Capped(q)| == MAX_PENDING
  {
  }

  /** The cap drops the oldest and no more than need be: a recording that drops any leaves the queue full, with the newest in it. */
  lemma DropsOnlyPastCap(w: World, e: Event)
    requires Enabled(w, e) && !e.Snapshot? && !e.Send?
    ensures
      var w' := Apply(w, e);
      && w.lost <= w'.lost && w.emitted <= w'.emitted
      && w'.lost[|w.lost|..] + w'.r.events == w.r.events + w'.emitted[|w.emitted|..]
      && (|w'.lost| > |w.lost| ==> |w'.r.events| == MAX_PENDING)
  {
    var w' := Apply(w, e);
    if w'.emitted != w.emitted {
      CapExact(w.r.events + [w'.emitted[|w.emitted|]]);
      hide Counting, Capped, Overflow, Metrics;
      assert w'.emitted[|w.emitted|..] == [w'.emitted[|w.emitted|]];
    } else {
      hide Counting, Capped, Overflow, Metrics;
      assert w.r.events + [] == w.r.events;
    }
  }

  /** The same of a flush that failed: what it puts back stands before what was recorded since. */
  lemma PutBackInFront(w: World)
    requires w.flight != []
    ensures
      var w' := Apply(w, Send(Unsent));
      && w.lost <= w'.lost
      && w'.lost[|w.lost|..] + w'.r.events == Only(Events, w.flight) + w.r.events
      && (|w'.lost| > |w.lost| ==> |w'.r.events| == MAX_PENDING)
  {
    CapExact(Only(Events, w.flight) + w.r.events);
    hide Only, Capped, Overflow, PutBack;
  }

  // ----- the flush as a method is one of these runs -----

  function AsEvent(x: Recording): Event {
    match x
    case RecordOpen(id, kid, publishes, now) => Open(id, kid, publishes, now)
    case RecordPublishing(id) => Publish(id)
    case RecordRevalidate(id, b, live, now) => Revalidate(id, b, live, now)
    case RecordClose(id, b, reason, now) => Close(id, b, reason, now)
    case RecordForget(now) => Forget(now)
  }

  /** The recordings, then the events that follow. */
  function Before(xs: seq<Recording>, es: seq<Event>): seq<Event>
    decreases |xs|
  {
    if xs == [] then es else [AsEvent(xs[0])] + Before(xs[1..], es)
  }

  /** The events of a flush from batch k on. */
  function FlushEvents(rest: seq<Record>, k: nat, fate: Fate): seq<Event>
    decreases |rest|
  {
    if rest == [] then []
    else
      Before(fate.recorded(k),
        [Send(fate.outcome(k))]
        + (if fate.outcome(k) == Unsent then [] else FlushEvents(rest[Min(MAX_BATCH, |rest|)..], k + 1, fate)))
  }

  lemma RecordingStep(w: World, x: Recording)
    requires Enabled(w, AsEvent(x))
    ensures
      var w' := Apply(w, AsEvent(x));
      w'.r == Recorded(w.r, x) && w'.flight == w.flight && w'.totals == w.totals
  {
  }

  lemma {:induction false} RecordingsRun(w: World, xs: seq<Recording>, es: seq<Event>, w': World) returns (w1: World)
    requires Runs(w, Before(xs, es), w')
    ensures w1.r == RecordedAll(w.r, xs) && w1.flight == w.flight && w1.totals == w.totals && Runs(w1, es, w')
    decreases |xs|
  {
    if xs == [] {
      w1 := w;
    } else {
      var e := AsEvent(xs[0]);
      assert Before(xs, es)[0] == e && Before(xs, es)[1..] == Before(xs[1..], es);
      RecordingStep(w, xs[0]);
      hide Apply, Enabled, AsEvent;
      w1 := RecordingsRun(Apply(w, e), xs[1..], es, w');
    }
  }

  /** A flush, whatever is recorded meanwhile, ends as Flushed says and leaves nothing in flight: what holds of every run holds of the method. */
  lemma {:induction false} FlushIsARun(w: World, k: nat, fate: Fate, w': World)
    requires Runs(w, FlushEvents(w.flight, k, fate), w')
    ensures w'.r == Flushed(w.r, w.flight, w.totals, k, fate).0 && w'.flight == []
    decreases |w.flight|
  {
    if w.flight != [] {
      var n := Min(MAX_BATCH, |w.flight|);
      var e := Send(fate.outcome(k));
      var rest := if fate.outcome(k) == Unsent then [] else FlushEvents(w.flight[n..], k + 1, fate);
      var w1 := RecordingsRun(w, fate.recorded(k), [e] + rest, w');
      assert ([e] + rest)[1..] == rest;
      var w2 := Apply(w1, e);
      hide Acknowledged, Requeued, RecordedAll;
      if fate.outcome(k) != Unsent {
        FlushIsARun(w2, k + 1, fate, w');
      }
    }
  }

  /** With nothing recorded meanwhile every flush is a run; answered throughout, it loses nothing and every record was sent. */
  lemma {:induction false} QuietFlush(w: World, k: nat, fate: Fate) returns (w': World)
    requires forall i: nat :: fate.recorded(i) == []
    ensures Runs(w, FlushEvents(w.flight, k, fate), w')
    ensures Flushed(w.r, w.flight, w.totals, k, fate).1 ==>
              w'.lost == w.lost && |w'.acked + w'.refused| == |w.acked + w.refused| + |w.flight|
    decreases |w.flight|
  {
    if w.flight == [] {
      w' := w;
    } else {
      var e := Send(fate.outcome(k));
      var w1 := Apply(w, e);
      hide Acknowledged, Requeued;
      var es := FlushEvents(w.flight, k, fate);
      if fate.outcome(k) == Unsent {
        w' := w1;
        assert es == [e];
      } else {
        w' := QuietFlush(w1, k + 1, fate);
        assert es == [e] + FlushEvents(w1.flight, k + 1, fate);
      }
      assert es[0] == e && Runs(w1, es[1..], w');
    }
  }
}
