/**
 * Every run of recordings and flushes. A flush takes a snapshot, then sends batch
 * after batch; recordings come in between at any point. A send and the critical
 * section that follows it are one step, since nothing else depends on when the
 * send itself happened.
 */
module UsageRuns {
  import opened Prelude
  import opened Usage
  import opened UsageOrder

  datatype Event =
    | Open(id: string, kid: string, publishes: bool, now: int)
    | Publish(id: string)
    | Revalidate(id: string, b: Bytes, live: bool, now: int)
    | Close(id: string, b: Bytes, reason: string, now: int)
    | Forget(now: int)
    | Snapshot(ids: seq<string>, kids: seq<string>)
    | Send(outcome: Outcome)

  datatype World = World(
    r: Reporter,
    flight: seq<Record>,           // what the flush under way has not sent yet; empty when there is none
    totals: map<string, Bytes>,    // the viewer totals the flush took
    ids: set<string>,              // sessions ever opened
    last: map<string, Bytes>,      // each session's latest report of its bytes
    acked: seq<Record>,            // what the receiver accepted, in order
    refused: seq<Record>,          // what it refused as malformed
    lost: seq<Record>,             // opens and closes the cap dropped
    emitted: seq<Record>)          // opens and closes ever recorded

  const START := World(FRESH, [], map[], {}, map[], [], [], [], [])

  function Last(w: World, id: string): Bytes { if id in w.last then w.last[id] else ZERO }

  /** Session ids are random, so each is opened once, and a session's byte counts never decrease. */
  ghost predicate Enabled(w: World, e: Event) {
    match e
    case Open(id, _, _, _) => id !in w.ids
    case Revalidate(id, b, _, _) => Last(w, id).AtMost(b)
    case Close(id, b, _, _) => Last(w, id).AtMost(b)
    case Snapshot(ids, kids) => w.flight == [] && Lists(ids, w.r.latest.Keys) && Lists(kids, Totals(w.r).Keys)
    case Send(_) => w.flight != []
    case _ => true
  }

  /** w with its queue grown by rec: recorded, and the oldest dropped past the cap. */
  function Queued(w: World, r: Reporter, rec: Record): World {
    var q := w.r.events + [rec];
    w.(r := r, emitted := w.emitted + [rec], lost := w.lost + q[..Overflow(q)])
  }

  function AfterOpen(w: World, id: string, kid: string, publishes: bool, now: int): World {
    var r := Opened(w.r, id, kid, publishes, now);
    var w1 := if id !in w.r.closed && publishes then Queued(w, r, SessionOpen(id, kid)) else w.(r := r);
    w1.(ids := w.ids + {id})
  }

  function AfterPublish(w: World, id: string): World {
    if id !in w.r.sessions || w.r.sessions[id].publishes then w
    else Queued(w, Published(w.r, id), SessionOpen(id, w.r.sessions[id].kid))
  }

  function AfterRevalidate(w: World, id: string, b: Bytes, live: bool, now: int): World {
    w.(r := Revalidated(w.r, id, b, live, now), last := w.last[id := b])
  }

  function AfterClose(w: World, id: string, b: Bytes, reason: string, now: int): World {
    var r := Closed(w.r, id, b, reason, now);
    var w1 :=
      if id in w.r.sessions && w.r.sessions[id].publishes then
        Queued(w, r, SessionClose(id, w.r.sessions[id].kid, Metrics(b.Since(w.r.sessions[id].counted)), reason))
      else w.(r := r);
    w1.(last := w.last[id := b])
  }

  function AfterSnapshot(w: World, ids: seq<string>, kids: seq<string>): World
    requires forall i :: 0 <= i < |ids| ==> ids[i] in w.r.latest
    requires forall i :: 0 <= i < |kids| ==> kids[i] in Totals(w.r)
  {
    w.(r := Emptied(w.r), flight := Outgoing(w.r, ids, kids), totals := Totals(w.r))
  }

  function BatchSize(w: World): nat { Min(MAX_BATCH, |w.flight|) }

  function AfterSend(w: World, outcome: Outcome): World {
    var n := BatchSize(w);
    var batch := w.flight[..n];
    match outcome
    case Accepted =>
      w.(r := Acknowledged(w.r, batch, w.totals), flight := w.flight[n..], acked := w.acked + batch)
    case Malformed =>
      w.(r := Acknowledged(w.r, batch, w.totals), flight := w.flight[n..], refused := w.refused + batch)
    case Unsent =>
      var q := Only(Events, w.flight) + w.r.events;
      w.(r := Requeued(w.r, w.flight), flight := [], lost := w.lost + q[..Overflow(q)])
  }

  ghost function Apply(w: World, e: Event): World
    requires Enabled(w, e)
  {
    match e
    case Open(id, kid, publishes, now) => AfterOpen(w, id, kid, publishes, now)
    case Publish(id) => AfterPublish(w, id)
    case Revalidate(id, b, live, now) => AfterRevalidate(w, id, b, live, now)
    case Close(id, b, reason, now) => AfterClose(w, id, b, reason, now)
    case Forget(now) => w.(r := Forgotten(w.r, now))
    case Snapshot(ids, kids) => AfterSnapshot(w, ids, kids)
    case Send(outcome) => AfterSend(w, outcome)
  }

  ghost predicate Runs(w: World, es: seq<Event>, w': World)
    decreases |es|
  {
    if es == [] then w' == w else Enabled(w, es[0]) && Runs(Apply(w, es[0]), es[1..], w')
  }

  // ----- what every step keeps -----

  ghost predicate Ordered(w: World) { OrderOk(w.acked, w.flight, w.r.events, w.r.latest) }

  /** x was accepted, is being sent, or waits. */
  predicate Known(w: World, x: Record) {
    x in w.acked || x in w.flight || x in w.r.events || (x.UsageSoFar? && x.id in w.r.latest && w.r.latest[x.id] == x)
  }

  /** What a record of a session still live may be: its open, or usage no greater than its latest report. */
  predicate Live(w: World, x: Record)
    requires !x.Viewers? && x.id in w.r.sessions
  {
    && w.r.sessions[x.id].publishes
    && !x.SessionClose?
    && (x.UsageSoFar? ==> x.metrics.AtMost(Metrics(Last(w, x.id).Since(w.r.sessions[x.id].counted))))
  }

  ghost predicate LiveOk(w: World) {
    && w.r.sessions.Keys <= w.ids
    && forall x :: Known(w, x) && !x.Viewers? ==> x.id in w.ids && (x.id in w.r.sessions ==> Live(w, x))
  }

  /** The viewer totals sent are ones the key's total has reached, and those in flight are the ones taken. */
  ghost predicate ViewersOk(w: World) {
    && (forall x :: (x in w.acked || x in w.flight) && x.Viewers? ==>
          x.kid in w.r.viewers && x.metrics.AtMost(Metrics(w.r.viewers[x.kid].total)))
    && (forall x :: x in w.flight && x.Viewers? ==> x.kid in w.totals && x.metrics == Metrics(w.totals[x.kid]))
    && (forall kid :: kid in w.r.viewers && w.r.viewers[kid].sent ==>
          Viewers(kid, Metrics(w.r.viewers[kid].reported)) in w.acked + w.refused)
  }

  /** Where every open and close recorded is now. */
  ghost function Placed(w: World): multiset<Record> {
    multiset(Only(Events, w.acked)) + multiset(Only(Events, w.refused)) + multiset(Only(Events, w.flight))
    + multiset(w.r.events) + multiset(w.lost)
  }

  ghost predicate PlacedOk(w: World) {
    multiset(w.emitted) == Placed(w) && |w.r.events| <= MAX_PENDING
  }

  ghost predicate Inv(w: World) { Ordered(w) && LiveOk(w) && ViewersOk(w) && PlacedOk(w) }

  lemma StartInv()
    ensures Inv(START)
  {
  }

  // ----- records of sessions -----

  /** Nothing new is known of any session but perhaps sessions forgotten. */
  lemma LiveFrame(w: World, w': World)
    requires LiveOk(w) && w'.ids == w.ids && w'.last == w.last
    requires forall x :: Known(w', x) && !x.Viewers? ==> Known(w, x)
    requires forall id :: id in w'.r.sessions ==> id in w.r.sessions && w'.r.sessions[id] == w.r.sessions[id]
    ensures LiveOk(w')
  {
  }

  /** No record of the session is known. */
  ghost predicate Unknown(w: World, id: string) {
    forall x :: Known(w, x) && !x.Viewers? ==> x.id != id
  }

  lemma UnknownRel(w: World, id: string, rec: Record)
    requires Unknown(w, id) && !rec.Viewers? && rec.id == id
    requires forall k :: k in w.r.latest ==> w.r.latest[k].UsageSoFar? && w.r.latest[k].id == k
    ensures AllRel(w.acked, [rec]) && AllRel(w.flight, [rec]) && AllRel(w.r.events, [rec])
    ensures forall k :: k in w.r.latest ==> Rel(rec, w.r.latest[k]) && Rel(w.r.latest[k], rec)
  {
  }

  lemma LatestShape(w: World)
    requires Ordered(w)
    ensures forall k :: k in w.r.latest ==> w.r.latest[k].UsageSoFar? && w.r.latest[k].id == k
  {
  }

  /** Queueing an open for a session with no record. */
  lemma QueueOpen(w: World, w': World, id: string, kid: string)
    requires Ordered(w) && LiveOk(w) && Unknown(w, id) && id in w'.ids && w.ids <= w'.ids
    requires w'.acked == w.acked && w'.flight == w.flight && w'.r.latest == w.r.latest && w'.last == w.last
    requires w'.r.events == Capped(w.r.events + [SessionOpen(id, kid)])
    requires w'.r.sessions.Keys == w.r.sessions.Keys + {id} && w'.r.sessions[id].publishes
    requires forall k :: k in w.r.sessions && k != id ==> w'.r.sessions[k] == w.r.sessions[k]
    ensures Ordered(w') && LiveOk(w')
  {
    var rec := SessionOpen(id, kid);
    assert Ordered(w') by {
      LatestShape(w);
      UnknownRel(w, id, rec);
      hide Sorted, AllRel, LatestOk, Unknown, Known, LiveOk, Capped;
      AppendKeeps(w.acked, w.flight, w.r.events, w.r.latest, rec);
    }
    hide Ordered;
    forall x | Known(w', x) && !x.Viewers?
      ensures x.id in w'.ids && (x.id in w'.r.sessions ==> Live(w', x))
    {
      CappedFrom(w.r.events, rec, x);
      assert Known(w, x) || x == rec;
    }
  }

  lemma CappedFrom(events: seq<Record>, rec: Record, x: Record)
    ensures x in Capped(events + [rec]) ==> x in events || x == rec
  {
  }

  lemma OpenKeeps(w: World, id: string, kid: string, publishes: bool, now: int)
    requires Ordered(w) && LiveOk(w) && id !in w.ids
    ensures Ordered(AfterOpen(w, id, kid, publishes, now)) && LiveOk(AfterOpen(w, id, kid, publishes, now))
  {
    var w' := AfterOpen(w, id, kid, publishes, now);
    assert Unknown(w, id);
    if id !in w.r.closed && publishes {
      hide Ordered, LiveOk, Unknown, Capped;
      QueueOpen(w, w', id, kid);
    } else {
      hide OrderOk;
      forall x | Known(w', x) && !x.Viewers?
        ensures x.id in w'.ids && (x.id in w'.r.sessions ==> Live(w', x))
      {
        assert Known(w, x);
      }
    }
  }

  lemma PublishKeeps(w: World, id: string)
    requires Ordered(w) && LiveOk(w)
    ensures Ordered(AfterPublish(w, id)) && LiveOk(AfterPublish(w, id))
  {
    if id in w.r.sessions && !w.r.sessions[id].publishes {
      assert Unknown(w, id);
      assert id in w.ids;
      hide Ordered, LiveOk, Unknown, Capped;
      QueueOpen(w, AfterPublish(w, id), id, w.r.sessions[id].kid);
    }
  }

  lemma SinceGrows(a: Bytes, b: Bytes, base: Bytes)
    requires a.AtMost(b)
    ensures Metrics(a.Since(base)).AtMost(Metrics(b.Since(base)))
  {
  }

  /** Every record of a live publisher may precede its next report, or its close. */
  lemma NextFits(w: World, id: string, b: Bytes, rec: Record)
    requires Ordered(w) && LiveOk(w) && id in w.r.sessions && w.r.sessions[id].publishes && Last(w, id).AtMost(b)
    requires (rec.UsageSoFar? || rec.SessionClose?) && rec.id == id && rec.metrics == Metrics(b.Since(w.r.sessions[id].counted))
    ensures forall x :: Known(w, x) ==> Rel(x, rec)
    ensures rec.UsageSoFar? ==> Fits(rec, w.acked, w.flight, w.r.events)
  {
  }

  lemma RevalidateOrdered(w: World, id: string, b: Bytes, live: bool, now: int)
    requires Ordered(w) && LiveOk(w) && Last(w, id).AtMost(b)
    ensures Ordered(AfterRevalidate(w, id, b, live, now))
  {
    hide OrderOk, LiveOk;
    if id in w.r.sessions && w.r.sessions[id].publishes && !b.AtMost(w.r.sessions[id].counted) {
      var u := UsageSoFar(id, w.r.sessions[id].kid, Metrics(b.Since(w.r.sessions[id].counted)));
      NextFits(w, id, b, u);
      ReportKeeps(w.acked, w.flight, w.r.events, w.r.latest, u);
    }
  }

  /** A report moves the session's latest bytes on, counts it if it is a viewer, and leaves all else. */
  lemma ReportLive(w: World, w': World, id: string, b: Bytes, u: Record)
    requires LiveOk(w) && Last(w, id).AtMost(b)
    requires w'.acked == w.acked && w'.flight == w.flight && w'.r.events == w.r.events && w'.ids == w.ids
    requires w'.last == w.last[id := b]
    requires w'.r.sessions.Keys == w.r.sessions.Keys
    requires forall k :: k in w.r.sessions && k != id ==> w'.r.sessions[k] == w.r.sessions[k]
    requires id in w.r.sessions ==> w'.r.sessions[id].publishes == w.r.sessions[id].publishes
    requires id in w.r.sessions && w.r.sessions[id].publishes ==> w'.r.sessions[id].counted == w.r.sessions[id].counted
    requires w'.r.latest == w.r.latest
      || (id in w.r.sessions && w.r.sessions[id].publishes && u.UsageSoFar? && u.id == id
          && u.metrics == Metrics(b.Since(w.r.sessions[id].counted)) && w'.r.latest == w.r.latest[id := u])
    ensures LiveOk(w')
  {
    forall x | Known(w', x) && !x.Viewers?
      ensures x.id in w'.ids && (x.id in w'.r.sessions ==> Live(w', x))
    {
      if Known(w, x) {
        if x.id == id && id in w.r.sessions {
          assert Live(w, x);
          SinceGrows(Last(w, id), b, w.r.sessions[id].counted);
          AtMostTrans(x, Metrics(Last(w, id).Since(w.r.sessions[id].counted)), Metrics(b.Since(w.r.sessions[id].counted)));
        }
      } else {
        assert x == u;
      }
    }
  }

  lemma AtMostTrans(x: Record, a: Bytes, b: Bytes)
    requires a.AtMost(b)
    ensures x.UsageSoFar? && x.metrics.AtMost(a) ==> x.metrics.AtMost(b)
  {
  }

  lemma RevalidateLive(w: World, id: string, b: Bytes, live: bool, now: int)
    requires LiveOk(w) && Last(w, id).AtMost(b)
    ensures LiveOk(AfterRevalidate(w, id, b, live, now))
  {
    hide LiveOk, Metrics, Counting;
    var u := if id in w.r.sessions then UsageSoFar(id, w.r.sessions[id].kid, Metrics(b.Since(w.r.sessions[id].counted))) else SessionOpen(id, "");
    ReportLive(w, AfterRevalidate(w, id, b, live, now), id, b, u);
  }

  lemma CloseOrdered(w: World, id: string, b: Bytes, reason: string, now: int)
    requires Ordered(w) && LiveOk(w) && Last(w, id).AtMost(b)
    ensures Ordered(AfterClose(w, id, b, reason, now))
  {
    if id in w.r.sessions && w.r.sessions[id].publishes {
      var rec := SessionClose(id, w.r.sessions[id].kid, Metrics(b.Since(w.r.sessions[id].counted)), reason);
      NextFits(w, id, b, rec);
      LatestShape(w);
      KnownRel(w, rec);
      hide OrderOk, LiveOk, Known, Capped;
      var latest := w.r.latest - {id};
      UnreportKeeps(w.acked, w.flight, w.r.events, w.r.latest, id);
      AppendKeeps(w.acked, w.flight, w.r.events, latest, rec);
    }
  }

  lemma KnownRel(w: World, rec: Record)
    requires forall x :: Known(w, x) ==> Rel(x, rec)
    requires forall k :: k in w.r.latest ==> w.r.latest[k].UsageSoFar? && w.r.latest[k].id == k
    ensures AllRel(w.acked, [rec]) && AllRel(w.flight, [rec]) && AllRel(w.r.events, [rec])
    ensures forall k :: k in w.r.latest ==> Rel(w.r.latest[k], rec)
  {
  }

  lemma CloseLive(w: World, id: string, b: Bytes, reason: string, now: int)
    requires LiveOk(w)
    ensures LiveOk(AfterClose(w, id, b, reason, now))
  {
    var w' := AfterClose(w, id, b, reason, now);
    forall x | Known(w', x) && !x.Viewers?
      ensures x.id in w'.ids && (x.id in w'.r.sessions ==> Live(w', x))
    {
      if id in w.r.sessions && w.r.sessions[id].publishes {
        CappedFrom(w.r.events, SessionClose(id, w.r.sessions[id].kid, Metrics(b.Since(w.r.sessions[id].counted)), reason), x);
      }
      if Known(w, x) {
        assert x.id in w.r.sessions ==> Live(w, x);
      }
    }
  }

  lemma ForgetKeeps(w: World, now: int)
    requires Ordered(w) && LiveOk(w)
    ensures Ordered(w.(r := Forgotten(w.r, now))) && LiveOk(w.(r := Forgotten(w.r, now)))
  {
  }

  lemma OutgoingFrom(r: Reporter, ids: seq<string>, kids: seq<string>, x: Record)
    requires Lists(ids, r.latest.Keys) && Lists(kids, Totals(r).Keys)
    requires forall k :: k in r.latest ==> r.latest[k].UsageSoFar? && r.latest[k].id == k
    ensures x in Outgoing(r, ids, kids) && !x.Viewers? ==>
      x in r.events || (x.UsageSoFar? && x.id in r.latest && r.latest[x.id] == x)
    ensures x in Outgoing(r, ids, kids) && x.Viewers? && (forall i :: 0 <= i < |r.events| ==> IsEvent(r.events[i])) ==>
      x.kid in Totals(r) && x.metrics == Metrics(Totals(r)[x.kid])
  {
    OnlyKinds(r.events);
    hide Only, Totals;
    if x in LatestIn(r.latest, ids) {
      var i :| 0 <= i < |ids| && LatestIn(r.latest, ids)[i] == x;
      assert x == r.latest[ids[i]];
    }
    if x in ViewersIn(Totals(r), kids) {
      var i :| 0 <= i < |kids| && ViewersIn(Totals(r), kids)[i] == x;
      assert x.kid == kids[i];
    }
  }

  lemma SnapshotOrdered(w: World, ids: seq<string>, kids: seq<string>)
    requires Ordered(w) && ViewersOk(w) && Enabled(w, Snapshot(ids, kids))
    ensures Ordered(AfterSnapshot(w, ids, kids))
  {
    var vs := ViewersIn(Totals(w.r), kids);
    forall i, j | 0 <= i < |w.acked| && 0 <= j < |vs|
      ensures Rel(w.acked[i], vs[j])
    {
      assert kids[j] in Totals(w.r);
    }
    hide OrderOk, ViewersOk, Totals, Outgoing;
    SnapshotKeeps(w.acked, w.r, ids, kids);
  }

  lemma SnapshotLive(w: World, ids: seq<string>, kids: seq<string>)
    requires Ordered(w) && LiveOk(w) && Enabled(w, Snapshot(ids, kids))
    ensures LiveOk(AfterSnapshot(w, ids, kids))
  {
    var w' := AfterSnapshot(w, ids, kids);
    LatestShape(w);
    hide OrderOk, LiveOk, Outgoing, Totals;
    forall x | Known(w', x) && !x.Viewers?
      ensures Known(w, x)
    {
      OutgoingFrom(w.r, ids, kids, x);
    }
    LiveFrame(w, w');
  }

  lemma SendOrdered(w: World, outcome: Outcome)
    requires Ordered(w)
    ensures Ordered(AfterSend(w, outcome))
  {
    hide OrderOk, Requeued, Acknowledged;
    match outcome
    case Accepted =>
      AcknowledgedRest(w.r, w.flight[..BatchSize(w)], w.totals);
      SentKeeps(w.acked, w.flight, w.r.events, w.r.latest, BatchSize(w));
    case Malformed =>
      AcknowledgedRest(w.r, w.flight[..BatchSize(w)], w.totals);
      SentKeeps(w.acked, w.flight, w.r.events, w.r.latest, BatchSize(w));
    case Unsent =>
      RequeueKeeps(w.acked, w.flight, w.r);
  }

  lemma AcknowledgedRest(r: Reporter, batch: seq<Record>, totals: map<string, Bytes>)
    ensures
      var r' := Acknowledged(r, batch, totals);
      r'.events == r.events && r'.latest == r.latest && r'.sessions == r.sessions && r'.closed == r.closed
  {
  }

  lemma RequeuedFrom(w: World, x: Record)
    ensures x in Requeued(w.r, w.flight).events ==> x in w.flight || x in w.r.events
    ensures x.UsageSoFar? && x.id in Requeued(w.r, w.flight).latest && Requeued(w.r, w.flight).latest[x.id] == x ==>
      x in w.flight || (x.id in w.r.latest && w.r.latest[x.id] == x)
  {
    var back := Only(Events, w.flight);
    if x in Capped(back + w.r.events) {
      assert x in back + w.r.events;
      if x in back {
        var i :| 0 <= i < |back| && back[i] == x;
        OnlyMembers(Events, w.flight, i);
      }
    }
    if x.UsageSoFar? && x.id in Requeued(w.r, w.flight).latest {
      PutBackIs(w.r.latest, w.r.sessions, w.flight, x.id);
    }
  }

  lemma SendLive(w: World, outcome: Outcome)
    requires LiveOk(w)
    ensures LiveOk(AfterSend(w, outcome))
  {
    var w' := AfterSend(w, outcome);
    hide LiveOk, Requeued, Acknowledged, Only, Capped;
    AcknowledgedRest(w.r, w.flight[..BatchSize(w)], w.totals);
    RequeuedRest(w.r, w.flight);
    forall x | Known(w', x) && !x.Viewers?
      ensures Known(w, x)
    {
      RequeuedFrom(w, x);
    }
    LiveFrame(w, w');
  }

  lemma RequeuedRest(r: Reporter, unsent: seq<Record>)
    ensures Requeued(r, unsent).sessions == r.sessions && Requeued(r, unsent).viewers == r.viewers
  {
  }

  // ----- viewer totals -----

  /** Totals only grow, and what is reported is untouched. */
  ghost predicate Grown(v: map<string, Viewer>, v': map<string, Viewer>) {
    && (forall kid :: kid in v ==> kid in v' && v[kid].total.AtMost(v'[kid].total))
    && (forall kid :: kid in v' && v'[kid].sent ==> kid in v && v[kid].sent && v[kid].reported == v'[kid].reported)
  }

  lemma ViewersFrame(w: World, w': World)
    requires ViewersOk(w) && Grown(w.r.viewers, w'.r.viewers)
    requires w'.acked == w.acked && w'.flight == w.flight && w'.refused == w.refused && w'.totals == w.totals
    ensures ViewersOk(w')
  {
  }

  lemma CountingGrows(r: Reporter, s: Session, b: Bytes)
    ensures Grown(r.viewers, Counting(r, s, b))
  {
  }

  lemma RecordViewers(w: World, e: Event)
    requires ViewersOk(w) && Enabled(w, e) && !e.Snapshot? && !e.Send?
    ensures ViewersOk(Apply(w, e))
  {
    hide ViewersOk, Counting, Capped;
    if e.Revalidate? && e.id in w.r.sessions {
      CountingGrows(w.r, if e.live then w.r.sessions[e.id].(seen := e.now) else w.r.sessions[e.id], e.b);
    } else if e.Close? && e.id in w.r.sessions {
      CountingGrows(w.r, w.r.sessions[e.id], e.b);
    }
    ViewersFrame(w, Apply(w, e));
  }

  lemma SnapshotViewers(w: World, ids: seq<string>, kids: seq<string>)
    requires Ordered(w) && ViewersOk(w) && Enabled(w, Snapshot(ids, kids))
    ensures ViewersOk(AfterSnapshot(w, ids, kids))
  {
    var w' := AfterSnapshot(w, ids, kids);
    LatestShape(w);
    hide LatestOk, Sorted, AllRel, Outgoing;
    forall x | x in w'.flight && x.Viewers?
      ensures x.kid in w'.totals && x.metrics == Metrics(w'.totals[x.kid])
      ensures x.kid in w.r.viewers && x.metrics.AtMost(Metrics(w.r.viewers[x.kid].total))
    {
      OutgoingFrom(w.r, ids, kids, x);
    }
  }

  lemma SendViewers(w: World, outcome: Outcome)
    requires ViewersOk(w)
    ensures ViewersOk(AfterSend(w, outcome))
  {
  }
}
