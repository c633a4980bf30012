/** Byte conservation: every byte a session moved is in its key's viewer total or in its own records, once. */
module UsageBytes {
  import opened Prelude
  import opened Usage
  import opened UsageRuns

  /** What of a session's bytes its key's viewer total holds. */
  datatype Share = Share(kid: string, bytes: Bytes)

  /** A session's end: its final bytes, its share, what its own records carry beyond it, and its close record if it published. */
  datatype Ended = Ended(final: Bytes, share: Bytes, own: Bytes, close: Option<Record>)

  datatype Books = Books(w: World, shares: map<string, Share>, ended: map<string, Ended>)

  const START_BOOKS := Books(START, map[], map[])

  function CloseOf(s: Session, id: string, b: Bytes, reason: string): Record {
    SessionClose(id, s.kid, Metrics(b.Since(s.counted)), reason)
  }

  function EndOf(s: Session, id: string, b: Bytes, reason: string): Ended {
    if s.publishes then Ended(b, s.counted, b.Since(s.counted), Some(CloseOf(s, id, b, reason)))
    else Ended(b, s.counted.Join(b), ZERO, None)
  }

  ghost function Apply(k: Books, e: Event): Books
    requires Enabled(k.w, e)
  {
    var w', r := UsageRuns.Apply(k.w, e), k.w.r;
    match e
    case Open(id, kid, _, _) => Books(w', if id in r.closed then k.shares else k.shares[id := Share(kid, ZERO)], k.ended)
    case Revalidate(id, b, _, _) =>
      if id in r.sessions && !r.sessions[id].publishes
      then Books(w', k.shares[id := Share(r.sessions[id].kid, r.sessions[id].counted.Join(b))], k.ended)
      else k.(w := w')
    case Close(id, b, reason, _) =>
      if id !in r.sessions then k.(w := w')
      else
        var end := EndOf(r.sessions[id], id, b, reason);
        Books(w', k.shares[id := Share(r.sessions[id].kid, end.share)], k.ended[id := end])
    case _ => k.(w := w')
  }

  ghost predicate Runs(k: Books, es: seq<Event>, k': Books)
    decreases |es|
  {
    if es == [] then k' == k else Enabled(k.w, es[0]) && Runs(Apply(k, es[0]), es[1..], k')
  }

  // ----- sums of shares -----

  function Part(s: Share, kid: string): Bytes { if s.kid == kid then s.bytes else ZERO }

  /** The shares of all sessions of a key, forgotten and ended ones included. */
  ghost function Sum(shares: map<string, Share>, kid: string): Bytes
    decreases |shares|
  {
    if shares == map[] then ZERO
    else
      var id :| id in shares;
      Part(shares[id], kid).Plus(Sum(shares - {id}, kid))
  }

  lemma SumPick(shares: map<string, Share>, kid: string) returns (id: string)
    requires shares != map[]
    ensures id in shares && Sum(shares, kid) == Part(shares[id], kid).Plus(Sum(shares - {id}, kid))
  {
    hide Part;
    id :| id in shares && Sum(shares, kid) == Part(shares[id], kid).Plus(Sum(shares - {id}, kid));
  }

  lemma {:induction false} SumWithout(shares: map<string, Share>, kid: string, id: string)
    requires id in shares
    ensures Sum(shares, kid) == Part(shares[id], kid).Plus(Sum(shares - {id}, kid))
    decreases |shares|
  {
    hide Sum, Part;
    var x := SumPick(shares, kid);
    if x != id {
      SumWithout(shares - {x}, kid, id);
      SumWithout(shares - {id}, kid, x);
      assert shares - {x} - {id} == shares - {id} - {x};
    }
  }

  /** Setting one session's share. */
  lemma SumSet(shares: map<string, Share>, kid: string, id: string, s: Share)
    ensures Sum(shares[id := s], kid) == Part(s, kid).Plus(Sum(shares - {id}, kid))
  {
    hide Sum, Part;
    SumWithout(shares[id := s], kid, id);
    assert shares[id := s] - {id} == shares - {id};
  }

  /** A session's share plus what it moved since is the larger of the two, so exactly its bytes if they cover its share. */
  lemma ShareAndRest(b: Bytes, counted: Bytes)
    ensures counted.Plus(b.Since(counted)) == counted.Join(b)
    ensures counted.Plus(b.Since(counted)) == b <==> counted.AtMost(b)
  {
  }

  // ----- what every step keeps -----

  /** The books agree with the reporter: each live session's share is what it counted, and that is no more than it reported. */
  ghost predicate SharesOk(k: Books) {
    forall id :: id in k.w.r.sessions ==>
      && id in k.w.ids
      && id in k.shares && k.shares[id] == Share(k.w.r.sessions[id].kid, k.w.r.sessions[id].counted)
      && k.w.r.sessions[id].counted.AtMost(Last(k.w, id))
  }

  ghost predicate TotalsOk(k: Books) {
    forall kid :: ViewerOf(k.w.r, kid).total == Sum(k.shares, kid)
  }

  ghost predicate EndedOk(k: Books) {
    && (forall id :: id in k.shares ==> id in k.w.ids)
    && forall id :: id in k.ended ==>
      && id in k.w.ids && id !in k.w.r.sessions
      && id in k.shares && k.shares[id].bytes == k.ended[id].share
      && k.ended[id].share.Plus(k.ended[id].own) == k.ended[id].final
      && (k.ended[id].close.None? ==> k.ended[id].own == ZERO)
      && (k.ended[id].close.Some? ==>
            var c := k.ended[id].close.value;
            c.SessionClose? && c.id == id && c in k.w.emitted && c.metrics == Metrics(k.ended[id].own))
  }

  ghost predicate Inv(k: Books) { SharesOk(k) && TotalsOk(k) && EndedOk(k) }

  /** Setting a share moves the total by as much. */
  lemma TotalsSet(r: Reporter, r': Reporter, shares: map<string, Share>, id: string, s: Share)
    requires forall kid :: ViewerOf(r, kid).total == Sum(shares, kid)
    requires id in shares ==> shares[id].kid == s.kid && shares[id].bytes.AtMost(s.bytes)
    requires forall kid :: kid != s.kid ==> ViewerOf(r', kid).total == ViewerOf(r, kid).total
    requires ViewerOf(r', s.kid).total == ViewerOf(r, s.kid).total.Plus(s.bytes.Since(if id in shares then shares[id].bytes else ZERO))
    ensures forall kid :: ViewerOf(r', kid).total == Sum(shares[id := s], kid)
  {
    hide Sum, ViewerOf;
    forall kid
      ensures ViewerOf(r', kid).total == Sum(shares[id := s], kid)
    {
      SumSet(shares, kid, id, s);
      if id in shares {
        SumWithout(shares, kid, id);
      } else {
        assert shares - {id} == shares;
      }
    }
  }

  lemma CountingTotals(r: Reporter, s: Session, b: Bytes)
    ensures
      var r' := r.(viewers := Counting(r, s, b));
      && (forall kid :: kid != s.kid ==> ViewerOf(r', kid).total == ViewerOf(r, kid).total)
      && ViewerOf(r', s.kid).total == ViewerOf(r, s.kid).total.Plus(b.Since(s.counted))
  {
  }

  lemma JoinSince(b: Bytes, counted: Bytes)
    ensures counted.Join(b).Since(counted) == b.Since(counted)
    ensures counted.AtMost(counted.Join(b))
  {
  }

  /** Viewer totals depend on the viewers alone. */
  lemma SameViewers(r: Reporter, r': Reporter)
    requires r'.viewers == r.viewers
    ensures forall kid :: ViewerOf(r', kid) == ViewerOf(r, kid)
  {
  }

  lemma TotalsStep(k: Books, e: Event)
    requires SharesOk(k) && TotalsOk(k) && EndedOk(k) && Enabled(k.w, e)
    ensures TotalsOk(Apply(k, e))
  {
    var k', r := Apply(k, e), k.w.r;
    match e
    case Open(id, kid, _, _) =>
      TotalsOpen(k, e);
    case Revalidate(id, b, live, now) =>
      TotalsReport(k, e);
    case Close(id, b, reason, now) =>
      TotalsClose(k, e);
    case Send(outcome) =>
      TotalsSend(k, e);
    case _ =>
      SameViewers(r, k'.w.r);
  }

  lemma TotalsOpen(k: Books, e: Event)
    requires TotalsOk(k) && EndedOk(k) && Enabled(k.w, e) && e.Open?
    ensures TotalsOk(Apply(k, e))
  {
    var k' := Apply(k, e);
    assert e.id !in k.shares;
    hide TotalsOk, EndedOk, Capped;
    OpenTotals(k, k', e.id, e.kid);
  }

  lemma OpenTotals(k: Books, k': Books, id: string, kid: string)
    requires TotalsOk(k) && id !in k.shares && k'.w.r.viewers == k.w.r.viewers
    requires k'.shares == k.shares || k'.shares == k.shares[id := Share(kid, ZERO)]
    ensures TotalsOk(k')
  {
    SameViewers(k.w.r, k'.w.r);
    forall x
      ensures ViewerOf(k'.w.r, x).total == Sum(k'.shares, x)
    {
      assert ViewerOf(k.w.r, x).total == Sum(k.shares, x);
      hide *;
      NoShare(k.shares, x, id, kid);
    }
  }

  /** A session that moved nothing yet adds nothing. */
  lemma NoShare(shares: map<string, Share>, kid: string, id: string, own: string)
    requires id !in shares
    ensures Sum(shares[id := Share(own, ZERO)], kid) == Sum(shares, kid)
  {
    hide Sum;
    SumSet(shares, kid, id, Share(own, ZERO));
    assert shares - {id} == shares;
  }

  lemma TotalsReport(k: Books, e: Event)
    requires SharesOk(k) && TotalsOk(k) && Enabled(k.w, e) && e.Revalidate?
    ensures TotalsOk(Apply(k, e))
  {
    var k', r := Apply(k, e), k.w.r;
    if e.id in r.sessions && !r.sessions[e.id].publishes {
      var s := if e.live then r.sessions[e.id].(seen := e.now) else r.sessions[e.id];
      CountingTotals(r, s, e.b);
      SameViewers(r.(viewers := Counting(r, s, e.b)), k'.w.r);
      JoinSince(e.b, s.counted);
      hide Counting, ViewerOf, Capped;
      TotalsSet(r, k'.w.r, k.shares, e.id, Share(s.kid, s.counted.Join(e.b)));
    } else {
      SameViewers(r, k'.w.r);
    }
  }

  lemma TotalsClose(k: Books, e: Event)
    requires SharesOk(k) && TotalsOk(k) && Enabled(k.w, e) && e.Close?
    ensures TotalsOk(Apply(k, e))
  {
    var k', r := Apply(k, e), k.w.r;
    if e.id in r.sessions {
      var s := r.sessions[e.id];
      if s.publishes {
        SameViewers(r, k'.w.r);
        assert k.shares[e.id] == Share(s.kid, s.counted);
        assert k.shares[e.id := Share(s.kid, s.counted)] == k.shares;
      } else {
        CountingTotals(r, s, e.b);
        SameViewers(r.(viewers := Counting(r, s, e.b)), k'.w.r);
        JoinSince(e.b, s.counted);
        hide Counting, ViewerOf, Capped;
        TotalsSet(r, k'.w.r, k.shares, e.id, Share(s.kid, s.counted.Join(e.b)));
      }
    } else {
      SameViewers(r, k'.w.r);
    }
  }

  lemma TotalsSend(k: Books, e: Event)
    requires TotalsOk(k) && Enabled(k.w, e) && e.Send?
    ensures TotalsOk(Apply(k, e))
  {
    var w := k.w;
    AckTotals(w.r, w.flight[..BatchSize(w)], w.totals);
    SameViewers(w.r, Requeued(w.r, w.flight));
    hide Acknowledged, Requeued, Capped, Only;
  }

  lemma AckTotals(r: Reporter, batch: seq<Record>, totals: map<string, Bytes>)
    ensures forall kid :: ViewerOf(Acknowledged(r, batch, totals), kid).total == ViewerOf(r, kid).total
  {
  }

  /** A session set in the reporter and in the books alike. */
  lemma SharesSet(k: Books, k': Books, id: string, s: Session, b: Bytes)
    requires SharesOk(k) && id in k'.w.ids && k.w.ids <= k'.w.ids
    requires k'.w.r.sessions == k.w.r.sessions[id := s] && k'.shares == k.shares[id := Share(s.kid, s.counted)]
    requires forall x :: x != id ==> Last(k'.w, x) == Last(k.w, x)
    requires Last(k'.w, id) == b && s.counted.AtMost(b)
    ensures SharesOk(k')
  {
  }

  /** Sessions taken out, and shares of others kept. */
  lemma SharesFewer(k: Books, k': Books)
    requires SharesOk(k) && k.w.ids <= k'.w.ids
    requires forall x :: x in k'.w.r.sessions ==>
      && x in k.w.r.sessions && k'.w.r.sessions[x] == k.w.r.sessions[x]
      && Last(k.w, x).AtMost(Last(k'.w, x))
      && x in k'.shares && k'.shares[x] == k.shares[x]
    ensures SharesOk(k')
  {
  }

  lemma SharesStep(k: Books, e: Event)
    requires SharesOk(k) && Enabled(k.w, e)
    ensures SharesOk(Apply(k, e))
  {
    var k', r := Apply(k, e), k.w.r;
    hide SharesOk, Counting, Capped, Metrics, Outgoing, Acknowledged, Requeued, Only;
    match e
    case Open(id, kid, publishes, now) =>
      if id in r.closed {
        SharesFewerOpen(k, k');
      } else {
        SharesSet(k, k', id, Session(kid, publishes, now, ZERO), Last(k.w, id));
      }
    case Revalidate(id, b, live, now) => SharesReport(k, e);
    case Close(id, b, _, _) => SharesClose(k, e);
    case Publish(id) => SharesPublish(k, e);
    case Send(_) =>
      UsageRuns.AcknowledgedRest(r, k.w.flight[..BatchSize(k.w)], k.w.totals);
      UsageRuns.RequeuedRest(r, k.w.flight);
      SharesFewerOpen(k, k');
    case Snapshot(_, _) => SharesFewerOpen(k, k');
    case Forget(_) => SharesForget(k, e);
  }

  lemma SharesFewerOpen(k: Books, k': Books)
    requires SharesOk(k) && k.w.ids <= k'.w.ids && k'.w.r.sessions == k.w.r.sessions && k'.shares == k.shares && k'.w.last == k.w.last
    ensures SharesOk(k')
  {
  }

  lemma SharesForget(k: Books, e: Event)
    requires SharesOk(k) && Enabled(k.w, e) && e.Forget?
    ensures SharesOk(Apply(k, e))
  {
  }

  lemma SharesPublish(k: Books, e: Event)
    requires SharesOk(k) && Enabled(k.w, e) && e.Publish?
    ensures SharesOk(Apply(k, e))
  {
  }

  lemma SharesReport(k: Books, e: Event)
    requires SharesOk(k) && Enabled(k.w, e) && e.Revalidate?
    ensures SharesOk(Apply(k, e))
  {
    hide Counting, Metrics;
    var k', r := Apply(k, e), k.w.r;
    if e.id in r.sessions {
      var s0 := if e.live then r.sessions[e.id].(seen := e.now) else r.sessions[e.id];
      var s := if s0.publishes then s0 else s0.(counted := s0.counted.Join(e.b));
      if s0.publishes {
        assert k.shares[e.id := Share(s.kid, s.counted)] == k.shares;
      }
      SharesSet(k, k', e.id, s, e.b);
    } else {
      SharesFewer(k, k');
    }
  }

  lemma SharesClose(k: Books, e: Event)
    requires SharesOk(k) && Enabled(k.w, e) && e.Close?
    ensures SharesOk(Apply(k, e))
  {
    hide SharesOk, AfterClose;
    var k' := Apply(k, e);
    CloseFields(k.w, e.id, e.b, e.reason, e.now);
    SharesLeave(k, k', e.id);
  }

  lemma SharesLeave(k: Books, k': Books, id: string)
    requires SharesOk(k) && k'.w.ids == k.w.ids && k'.w.r.sessions == k.w.r.sessions - {id}
    requires forall x :: x != id ==> Last(k'.w, x) == Last(k.w, x)
    requires forall x :: x in k.shares && x != id ==> x in k'.shares && k'.shares[x] == k.shares[x]
    ensures SharesOk(k')
  {
  }

  /** What the books say of ended sessions rests on few things. */
  lemma EndedFrame(k: Books, k': Books)
    requires EndedOk(k) && k'.ended == k.ended && k.w.ids <= k'.w.ids
    requires forall id :: id in k.ended ==> id !in k'.w.r.sessions && id in k'.shares && k'.shares[id] == k.shares[id]
    requires forall id :: id in k'.shares ==> id in k.shares || id in k'.w.ids
    requires forall x :: x in k.w.emitted ==> x in k'.w.emitted
    ensures EndedOk(k')
  {
  }

  /** What closing changes, as far as the books go. */
  lemma CloseFields(w: World, id: string, b: Bytes, reason: string, now: int)
    ensures
      var w' := AfterClose(w, id, b, reason, now);
      && w'.ids == w.ids && w'.last == w.last[id := b] && w'.r.sessions == w.r.sessions - {id}
      && (forall x :: x in w.emitted ==> x in w'.emitted)
      && (id in w.r.sessions && w.r.sessions[id].publishes ==> CloseOf(w.r.sessions[id], id, b, reason) in w'.emitted)
  {
  }

  /** A session's end is entered. */
  lemma EndedSet(k: Books, k': Books, id: string, kid: string, end: Ended)
    requires EndedOk(k) && id in k.w.ids && k'.w.ids == k.w.ids
    requires k'.ended == k.ended[id := end] && k'.shares == k.shares[id := Share(kid, end.share)]
    requires k'.w.r.sessions == k.w.r.sessions - {id}
    requires forall x :: x in k.w.emitted ==> x in k'.w.emitted
    requires end.share.Plus(end.own) == end.final && (end.close.None? ==> end.own == ZERO)
    requires end.close.Some? ==>
      end.close.value.SessionClose? && end.close.value.id == id && end.close.value in k'.w.emitted && end.close.value.metrics == Metrics(end.own)
    ensures EndedOk(k')
  {
    hide Metrics;
  }

  lemma EndedClose(k: Books, e: Event)
    requires SharesOk(k) && EndedOk(k) && Enabled(k.w, e) && e.Close? && e.id in k.w.r.sessions
    ensures EndedOk(Apply(k, e))
  {
    var s := k.w.r.sessions[e.id];
    assert s.counted.AtMost(e.b) && e.id in k.w.ids;
    ShareAndRest(e.b, s.counted);
    CloseFields(k.w, e.id, e.b, e.reason, e.now);
    hide EndedOk, SharesOk, AfterClose, Metrics;
    EndedSet(k, Apply(k, e), e.id, s.kid, EndOf(s, e.id, e.b, e.reason));
  }

  lemma EndedStep(k: Books, e: Event)
    requires SharesOk(k) && EndedOk(k) && Enabled(k.w, e)
    ensures EndedOk(Apply(k, e))
  {
    var k' := Apply(k, e);
    if e.Close? && e.id in k.w.r.sessions {
      EndedClose(k, e);
    } else {
      EndedRest(k, e);
      EndedFrame(k, k');
    }
  }

  /** No other step brings a session back. */
  lemma EndedRest(k: Books, e: Event)
    requires SharesOk(k) && EndedOk(k) && Enabled(k.w, e) && !(e.Close? && e.id in k.w.r.sessions)
    ensures
      var k' := Apply(k, e);
      && k'.ended == k.ended && k.w.ids <= k'.w.ids
      && (forall id :: id in k.ended ==> id !in k'.w.r.sessions && id in k'.shares && k'.shares[id] == k.shares[id])
      && (forall id :: id in k'.shares ==> id in k.shares || id in k'.w.ids)
      && (forall x :: x in k.w.emitted ==> x in k'.w.emitted)
  {
    hide Counting, Capped, Metrics, Outgoing, Acknowledged, Requeued, Only;
    match e
    case Open(_, _, _, _) =>
    case Publish(_) =>
    case Revalidate(_, _, _, _) =>
    case Close(id, b, reason, now) =>
      CloseFields(k.w, id, b, reason, now);
      hide AfterClose;
    case Forget(_) =>
    case Snapshot(_, _) =>
    case Send(_) =>
      UsageRuns.AcknowledgedRest(k.w.r, k.w.flight[..BatchSize(k.w)], k.w.totals);
      UsageRuns.RequeuedRest(k.w.r, k.w.flight);
  }

  // ----- over every run -----

  lemma ApplyInv(k: Books, e: Event)
    requires Inv(k) && Enabled(k.w, e)
    ensures Inv(Apply(k, e))
  {
    hide SharesOk, TotalsOk, EndedOk, Enabled, Apply;
    SharesStep(k, e);
    TotalsStep(k, e);
    EndedStep(k, e);
  }

  lemma {:induction false} RunInv(k: Books, es: seq<Event>, k': Books)
    requires Inv(k) && Runs(k, es, k')
    ensures Inv(k')
    decreases |es|
  {
    hide Inv, Enabled, Apply;
    if es != [] {
      ApplyInv(k, es[0]);
      RunInv(Apply(k, es[0]), es[1..], k');
    }
  }

  lemma StartInv()
    ensures Inv(START_BOOKS)
  {
  }

  lemma ReachedInv(es: seq<Event>, k: Books)
    requires Runs(START_BOOKS, es, k)
    ensures Inv(k)
  {
    hide *;
    StartInv();
    RunInv(START_BOOKS, es, k);
  }

  /**
   * For any order of revalidates, publishing and close, with a session's reports
   * never decreasing: its share of its key's viewer total plus what its close
   * record carries is its final bytes, in each direction; and the close record,
   * there exactly if it published, was recorded with that amount.
   */
  lemma ClosedSessionConserved(es: seq<Event>, k: Books, id: string)
    requires Runs(START_BOOKS, es, k) && id in k.ended
    ensures k.ended[id].share.sent + k.ended[id].own.sent == k.ended[id].final.sent
    ensures k.ended[id].share.received + k.ended[id].own.received == k.ended[id].final.received
    ensures id in k.shares && k.shares[id].bytes == k.ended[id].share
    ensures k.ended[id].close.None? ==> k.ended[id].own == ZERO
    ensures k.ended[id].close.Some? ==>
      k.ended[id].close.value in k.w.emitted && k.ended[id].close.value.SessionClose?
      && k.ended[id].close.value.id == id
      && k.ended[id].close.value.metrics.sent == Min(k.ended[id].final.sent - k.ended[id].share.sent, MAX_INT64)
      && k.ended[id].close.value.metrics.received == Min(k.ended[id].final.received - k.ended[id].share.received, MAX_INT64)
  {
    ReachedInv(es, k);
    hide Runs, SharesOk, TotalsOk;
  }

  /** Each key's viewer total is the sum of the shares of all its sessions, ended and forgotten ones included. */
  lemma TotalIsSumOfShares(es: seq<Event>, k: Books, kid: string)
    requires Runs(START_BOOKS, es, k)
    ensures ViewerOf(k.w.r, kid).total == Sum(k.shares, kid)
  {
    ReachedInv(es, k);
    hide Runs, SharesOk, EndedOk, Sum, ViewerOf;
  }
}
