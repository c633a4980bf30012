/** The order in which a session's records reach the receiver, step by step of the outbox. */
module UsageOrder {
  import opened Usage

  function Rank(r: Record): nat {
    match r
    case SessionOpen(_, _) => 0
    case UsageSoFar(_, _, _) => 1
    case SessionClose(_, _, _, _) => 2
    case Viewers(_, _) => 0
  }

  /** a may reach the receiver before b: a session's open, then its usage, then its close, with totals never decreasing; a key's viewer totals never decreasing. */
  predicate Rel(a: Record, b: Record) {
    && (!a.Viewers? && !b.Viewers? && a.id == b.id ==>
          && (Rank(a) < Rank(b) || (a.UsageSoFar? && b.UsageSoFar?))
          && (!a.SessionOpen? && !b.SessionOpen? ==> a.metrics.AtMost(b.metrics)))
    && (a.Viewers? && b.Viewers? && a.kid == b.kid ==> a.metrics.AtMost(b.metrics))
  }

  ghost predicate Sorted(s: seq<Record>) {
    forall i, j :: 0 <= i < j < |s| ==> Rel(s[i], s[j])
  }

  ghost predicate AllRel(x: seq<Record>, y: seq<Record>) {
    forall i, j :: 0 <= i < |x| && 0 <= j < |y| ==> Rel(x[i], y[j])
  }

  /** A pending report comes after what was sent and after its session's open, and before its session's close. */
  ghost predicate Fits(u: Record, acked: seq<Record>, flight: seq<Record>, events: seq<Record>) {
    && (forall i :: 0 <= i < |acked| ==> Rel(acked[i], u))
    && (forall i :: 0 <= i < |flight| ==> Rel(flight[i], u))
    && (forall i :: 0 <= i < |events| ==>
          if events[i].SessionOpen? then Rel(events[i], u) else Rel(u, events[i]))
  }

  ghost predicate LatestOk(latest: map<string, Record>, acked: seq<Record>, flight: seq<Record>, events: seq<Record>) {
    forall id :: id in latest ==> latest[id].UsageSoFar? && latest[id].id == id && Fits(latest[id], acked, flight, events)
  }

  /** What was acknowledged, what a flush still has to send, and what waits are in an order the receiver may see them in. */
  ghost predicate OrderOk(acked: seq<Record>, flight: seq<Record>, events: seq<Record>, latest: map<string, Record>) {
    && Sorted(acked) && Sorted(flight) && Sorted(events)
    && AllRel(acked, flight) && AllRel(acked, events) && AllRel(flight, events)
    && (forall i :: 0 <= i < |events| ==> IsEvent(events[i]))
    && LatestOk(latest, acked, flight, events)
  }

  lemma SortedConcat(x: seq<Record>, y: seq<Record>)
    requires Sorted(x) && Sorted(y) && AllRel(x, y)
    ensures Sorted(x + y)
  {
  }

  lemma {:induction false} OnlyMembers(k: Kind, s: seq<Record>, i: nat)
    requires i < |Only(k, s)|
    ensures k.Has(Only(k, s)[i]) && Only(k, s)[i] in s
    decreases |s|
  {
    var init := s[..|s| - 1];
    if i < |Only(k, init)| {
      OnlyMembers(k, init, i);
      assert Only(k, s)[i] == Only(k, init)[i];
    }
  }

  lemma {:induction false} OnlySorted(k: Kind, s: seq<Record>)
    requires Sorted(s)
    ensures Sorted(Only(k, s))
    decreases |s|
  {
    if s != [] {
      var init, last := s[..|s| - 1], s[|s| - 1];
      OnlySorted(k, init);
      forall i: nat | i < |Only(k, init)|
        ensures Rel(Only(k, init)[i], last)
      {
        OnlyMembers(k, init, i);
        var j :| 0 <= j < |init| && init[j] == Only(k, init)[i];
        assert s[j] == init[j];
      }
    }
  }

  lemma OnlyAllRel(k: Kind, s: seq<Record>, y: seq<Record>)
    ensures AllRel(s, y) ==> AllRel(Only(k, s), y)
    ensures AllRel(y, s) ==> AllRel(y, Only(k, s))
  {
  }

  // ----- recording -----

  /** An open or a close that may follow everything of its session is queued, and the cap drops the oldest. */
  lemma AppendKeeps(acked: seq<Record>, flight: seq<Record>, events: seq<Record>, latest: map<string, Record>, rec: Record)
    requires OrderOk(acked, flight, events, latest) && IsEvent(rec)
    requires AllRel(acked, [rec]) && AllRel(flight, [rec]) && AllRel(events, [rec])
    requires forall id :: id in latest ==> if rec.SessionOpen? then Rel(rec, latest[id]) else Rel(latest[id], rec)
    ensures OrderOk(acked, flight, Capped(events + [rec]), latest)
  {
    SortedConcat(events, [rec]);
    CapKeeps(acked, flight, events + [rec], latest);
  }

  lemma CapKeeps(acked: seq<Record>, flight: seq<Record>, events: seq<Record>, latest: map<string, Record>)
    requires OrderOk(acked, flight, events, latest)
    ensures OrderOk(acked, flight, Capped(events), latest)
  {
  }

  lemma ReportKeeps(acked: seq<Record>, flight: seq<Record>, events: seq<Record>, latest: map<string, Record>, u: Record)
    requires OrderOk(acked, flight, events, latest) && u.UsageSoFar? && Fits(u, acked, flight, events)
    ensures OrderOk(acked, flight, events, latest[u.id := u])
  {
  }

  lemma UnreportKeeps(acked: seq<Record>, flight: seq<Record>, events: seq<Record>, latest: map<string, Record>, id: string)
    requires OrderOk(acked, flight, events, latest)
    ensures OrderOk(acked, flight, events, latest - {id})
  {
  }

  // ----- sending -----

  lemma SentKeeps(acked: seq<Record>, flight: seq<Record>, events: seq<Record>, latest: map<string, Record>, n: nat)
    requires OrderOk(acked, flight, events, latest) && n <= |flight|
    ensures OrderOk(acked + flight[..n], flight[n..], events, latest)
    ensures OrderOk(acked, flight[n..], events, latest)
  {
  }

  /** Laying out what was pending: opens, reports, viewer totals, closes. */
  lemma LayoutSorted(os: seq<Record>, us: seq<Record>, vs: seq<Record>, cs: seq<Record>)
    requires Sorted(os) && Sorted(us) && Sorted(vs) && Sorted(cs)
    requires AllRel(os, us) && AllRel(os, cs) && AllRel(us, cs)
    requires forall i :: 0 <= i < |vs| ==> vs[i].Viewers?
    requires forall i :: 0 <= i < |os| ==> !os[i].Viewers?
    requires forall i :: 0 <= i < |us| ==> !us[i].Viewers?
    requires forall i :: 0 <= i < |cs| ==> !cs[i].Viewers?
    ensures Sorted(os + us + vs + cs)
  {
  }

  lemma AllRelParts(x: seq<Record>, os: seq<Record>, us: seq<Record>, vs: seq<Record>, cs: seq<Record>)
    requires AllRel(x, os) && AllRel(x, us) && AllRel(x, vs) && AllRel(x, cs)
    ensures AllRel(x, os + us + vs + cs)
  {
  }

  lemma LatestRel(acked: seq<Record>, latest: map<string, Record>, ids: seq<string>, events: seq<Record>)
    requires LatestOk(latest, acked, [], events) && Lists(ids, latest.Keys)
    ensures
      var us := LatestIn(latest, ids);
      && Sorted(us) && AllRel(acked, us)
      && (forall i :: 0 <= i < |us| ==> us[i].UsageSoFar?)
      && (forall i, j :: 0 <= i < |us| && 0 <= j < |events| ==>
            if events[j].SessionOpen? then Rel(events[j], us[i]) else Rel(us[i], events[j]))
  {
  }

  /** A snapshot of what waits is in order, after all that was acknowledged. */
  lemma SnapshotKeeps(acked: seq<Record>, r: Reporter, ids: seq<string>, kids: seq<string>)
    requires OrderOk(acked, [], r.events, r.latest)
    requires Lists(ids, r.latest.Keys) && Lists(kids, Totals(r).Keys)
    requires AllRel(acked, ViewersIn(Totals(r), kids))
    ensures OrderOk(acked, Outgoing(r, ids, kids), [], map[])
  {
    var os, us, vs, cs := Only(Opens, r.events), LatestIn(r.latest, ids), ViewersIn(Totals(r), kids), Only(Closes, r.events);
    OnlySorted(Opens, r.events);
    OnlySorted(Closes, r.events);
    OnlyAllRel(Opens, r.events, acked);
    OnlyAllRel(Closes, r.events, acked);
    LatestRel(acked, r.latest, ids, r.events);
    OnlyKinds(r.events);
    assert AllRel(os, us) && AllRel(us, cs) && AllRel(os, cs);
    hide Only, LatestIn, OrderOk, LatestOk;
    assert Sorted(vs);
    LayoutSorted(os, us, vs, cs);
    AllRelParts(acked, os, us, vs, cs);
    JustFlight(acked, os + us + vs + cs);
  }

  lemma OnlyKinds(events: seq<Record>)
    ensures forall i :: 0 <= i < |Only(Opens, events)| ==> Only(Opens, events)[i].SessionOpen? && Only(Opens, events)[i] in events
    ensures forall i :: 0 <= i < |Only(Closes, events)| ==> Only(Closes, events)[i].SessionClose? && Only(Closes, events)[i] in events
  {
  }

  lemma JustFlight(acked: seq<Record>, flight: seq<Record>)
    requires Sorted(acked) && Sorted(flight) && AllRel(acked, flight)
    ensures OrderOk(acked, flight, [], map[])
  {
  }

  // ----- putting back -----

  /** A report put back is one of the unsent ones, of a live session that had none. */
  lemma {:induction false} PutBackIs(latest: map<string, Record>, sessions: map<string, Session>, rs: seq<Record>, id: string)
    requires id in PutBack(latest, sessions, rs)
    ensures (id in latest && PutBack(latest, sessions, rs)[id] == latest[id])
         || (id !in latest && id in sessions && PutBack(latest, sessions, rs)[id] in rs
             && PutBack(latest, sessions, rs)[id].UsageSoFar? && PutBack(latest, sessions, rs)[id].id == id)
    decreases |rs|
  {
    if rs != [] {
      var r := rs[0];
      var next := if r.UsageSoFar? && r.id !in latest && r.id in sessions then latest[r.id := r] else latest;
      PutBackIs(next, sessions, rs[1..], id);
    }
  }

  lemma BackFits(acked: seq<Record>, flight: seq<Record>, events: seq<Record>, latest: map<string, Record>, u: Record)
    requires OrderOk(acked, flight, events, latest) && u in flight && u.UsageSoFar?
    ensures Fits(u, acked, [], Only(Events, flight) + events)
  {
    var k :| 0 <= k < |flight| && flight[k] == u;
    var back := Only(Events, flight);
    forall i | 0 <= i < |back|
      ensures if back[i].SessionOpen? then Rel(back[i], u) else Rel(u, back[i])
    {
      OnlyMembers(Events, flight, i);
      var j :| 0 <= j < |flight| && flight[j] == back[i];
      assert j != k;
      if j < k {
        assert Rel(flight[j], flight[k]);
      } else {
        assert Rel(flight[k], flight[j]);
      }
    }
    hide LatestOk, Only;
    forall i | 0 <= i < |back + events|
      ensures if (back + events)[i].SessionOpen? then Rel((back + events)[i], u) else Rel(u, (back + events)[i])
    {
      if i >= |back| {
        assert Rel(flight[k], events[i - |back|]);
      }
    }
  }

  lemma StillFits(acked: seq<Record>, flight: seq<Record>, events: seq<Record>, u: Record)
    requires Fits(u, acked, flight, events) && u.UsageSoFar?
    ensures Fits(u, acked, [], Only(Events, flight) + events)
  {
    var back := Only(Events, flight);
    forall i | 0 <= i < |back|
      ensures Rel(back[i], u) && (back[i].SessionClose? ==> Rel(u, back[i])) && IsEvent(back[i])
    {
      OnlyMembers(Events, flight, i);
    }
  }

  /** Records a failed flush puts back keep the order, whatever was recorded meanwhile. */
  lemma RequeueKeeps(acked: seq<Record>, flight: seq<Record>, r: Reporter)
    requires OrderOk(acked, flight, r.events, r.latest)
    ensures OrderOk(acked, [], Requeued(r, flight).events, Requeued(r, flight).latest)
  {
    var back := Only(Events, flight);
    var latest' := PutBack(r.latest, r.sessions, flight);
    RequeuedEvents(acked, flight, r.events);
    forall id | id in latest'
      ensures latest'[id].UsageSoFar? && latest'[id].id == id && Fits(latest'[id], acked, [], back + r.events)
    {
      PutBackIs(r.latest, r.sessions, flight, id);
      if id in r.latest {
        StillFits(acked, flight, r.events, latest'[id]);
      } else {
        BackFits(acked, flight, r.events, r.latest, latest'[id]);
      }
    }
    hide Sorted, AllRel, Fits, PutBack, Only;
    assert OrderOk(acked, [], back + r.events, latest');
    CapKeeps(acked, [], back + r.events, latest');
  }

  lemma RequeuedEvents(acked: seq<Record>, flight: seq<Record>, events: seq<Record>)
    requires Sorted(acked) && Sorted(flight) && Sorted(events)
    requires AllRel(acked, flight) && AllRel(acked, events) && AllRel(flight, events)
    requires forall i :: 0 <= i < |events| ==> IsEvent(events[i])
    ensures
      var all := Only(Events, flight) + events;
      && Sorted(all) && AllRel(acked, all) && Sorted([]) && AllRel(acked, []) && AllRel([], all)
      && forall i :: 0 <= i < |all| ==> IsEvent(all[i])
  {
    var back := Only(Events, flight);
    OnlySorted(Events, flight);
    OnlyAllRel(Events, flight, events);
    OnlyAllRel(Events, flight, acked);
    SortedConcat(back, events);
    forall i | 0 <= i < |back|
      ensures IsEvent(back[i])
    {
      OnlyMembers(Events, flight, i);
    }
  }
}
