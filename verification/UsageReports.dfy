/** Usage reports: what each carries, and that the newest of a live publisher is never lost. */
module UsageReports {
  import opened Usage
  import opened UsageOrder
  import opened UsageRuns
  import opened UsageTheorems
  import opened UsageSessions

  /** A publisher reported its bytes so far, of which share is counted among its key's viewers. */
  datatype Note = Note(id: string, kid: string, bytes: Bytes, share: Bytes) {
    predicate Grew() { share.sent < bytes.sent || share.received < bytes.received }
  }

  /** A run together with every such report, and each session's newest. */
  datatype Books = Books(w: World, notes: set<Note>, newest: map<string, Note>)

  const START_BOOKS := Books(START, {}, map[])

  ghost function Apply(k: Books, e: Event): Books
    requires Enabled(k.w, e)
  {
    var w', r := UsageRuns.Apply(k.w, e), k.w.r;
    if e.Revalidate? && e.id in r.sessions && r.sessions[e.id].publishes then
      var n := Note(e.id, r.sessions[e.id].kid, e.b, r.sessions[e.id].counted);
      Books(w', k.notes + {n}, k.newest[e.id := n])
    else k.(w := w')
  }

  ghost predicate Runs(k: Books, es: seq<Event>, k': Books)
    decreases |es|
  {
    if es == [] then k' == k else Enabled(k.w, es[0]) && Runs(Apply(k, es[0]), es[1..], k')
  }

  /** x is the usage record of a report: in each direction what goes beyond the share. */
  predicate Carries(x: Record, n: Note) {
    && x.UsageSoFar? && x.id == n.id && x.kid == n.kid
    && x.metrics == Bytes(Beyond(n.bytes.sent, n.share.sent), Beyond(n.bytes.received, n.share.received))
  }

  /** x waits, is being sent, or was answered. */
  predicate Somewhere(w: World, x: Record) {
    || x in w.acked || x in w.refused || x in w.flight
    || (x.UsageSoFar? && x.id in w.r.latest && w.r.latest[x.id] == x)
  }

  ghost predicate NotesOk(k: Books) {
    forall x :: Somewhere(k.w, x) && x.UsageSoFar? ==> exists n :: n in k.notes && Carries(x, n)
  }

  /** What waits of a live session is its newest report, and so is what is being sent of it if none waits. */
  ghost predicate NewestOk(k: Books, id: string)
    requires id in k.w.r.sessions
  {
    && (id in k.newest ==> Fits(k, id, k.newest[id]))
    && (id in k.w.r.latest ==> id in k.newest && k.newest[id].Grew() && Carries(k.w.r.latest[id], k.newest[id]))
    && (id !in k.w.r.latest ==> forall x :: x in k.w.flight && x.UsageSoFar? && x.id == id ==>
          id in k.newest && k.newest[id].Grew() && Carries(x, k.newest[id]))
    && (id in k.newest && k.newest[id].Grew() ==> exists x :: Somewhere(k.w, x) && Carries(x, k.newest[id]))
  }

  predicate Fits(k: Books, id: string, n: Note)
    requires id in k.w.r.sessions
  {
    && k.w.r.sessions[id].publishes
    && n.id == id && n.kid == k.w.r.sessions[id].kid && n.share == k.w.r.sessions[id].counted
    && n.bytes.AtMost(Last(k.w, id))
  }

  ghost predicate AllNewest(k: Books) {
    && k.newest.Keys <= k.w.ids
    && forall id :: id in k.w.r.sessions ==> NewestOk(k, id)
  }

  // ----- recordings -----

  /** Nothing about the session changed, and no record of it moved. */
  lemma NewestFrame(k: Books, k': Books, id: string)
    requires id in k.w.r.sessions && NewestOk(k, id) && id in k'.w.r.sessions
    requires k'.w.r.sessions[id].(seen := 0) == k.w.r.sessions[id].(seen := 0)
    requires id in k'.newest <==> id in k.newest
    requires id in k.newest ==> k'.newest[id] == k.newest[id]
    requires id in k'.w.r.latest <==> id in k.w.r.latest
    requires id in k.w.r.latest ==> k'.w.r.latest[id] == k.w.r.latest[id]
    requires k'.w.acked == k.w.acked && k'.w.refused == k.w.refused && k'.w.flight == k.w.flight && Last(k'.w, id) == Last(k.w, id)
    ensures NewestOk(k', id)
  {
    if id in k.newest && k.newest[id].Grew() {
      var x :| Somewhere(k.w, x) && Carries(x, k.newest[id]);
      assert Somewhere(k'.w, x);
    }
  }

  lemma LatestKnown(w: World)
    requires Ordered(w)
    ensures forall id :: id in w.r.latest ==> w.r.latest[id].UsageSoFar? && w.r.latest[id].id == id && Known(w, w.r.latest[id])
  {
    LatestShape(w);
  }

  /** No report of a session that is not a publisher, or not yet known, exists. */
  lemma NoneYet(k: Books, id: string)
    requires AllNewest(k) && LiveOk(k.w) && Ordered(k.w)
    requires id !in k.w.ids || (id in k.w.r.sessions && !k.w.r.sessions[id].publishes)
    ensures id !in k.newest && id !in k.w.r.latest
    ensures forall x :: x in k.w.flight && x.UsageSoFar? ==> x.id != id
  {
    LatestKnown(k.w);
    hide Ordered;
    forall x | x in k.w.flight && x.UsageSoFar?
      ensures x.id != id
    {
      assert Known(k.w, x);
    }
    if id in k.w.r.sessions {
      assert NewestOk(k, id);
    }
  }

  /** A session opens, becomes a publisher, ends or is forgotten. */
  lemma RecordNewest(k: Books, e: Event)
    requires AllNewest(k) && LiveOk(k.w) && Ordered(k.w) && Enabled(k.w, e)
    requires e.Open? || e.Publish? || e.Close? || e.Forget?
    ensures AllNewest(Apply(k, e))
  {
    var k' := Apply(k, e);
    forall id | id in k'.w.r.sessions
      ensures NewestOk(k', id)
    {
      RecordOne(k, e, id);
    }
  }

  /** What these recordings leave alone: every record but perhaps the queue, and every session but perhaps the one named. */
  lemma RecordFields(w: World, e: Event, id: string)
    requires Enabled(w, e) && (e.Open? || e.Publish? || e.Close? || e.Forget?)
    requires id in UsageRuns.Apply(w, e).r.sessions
    ensures
      var w' := UsageRuns.Apply(w, e);
      && w'.acked == w.acked && w'.refused == w.refused && w'.flight == w.flight
      && (id in w'.r.latest <==> id in w.r.latest) && (id in w.r.latest ==> w'.r.latest[id] == w.r.latest[id])
      && Last(w', id) == Last(w, id)
      && (e.Open? && e.id == id ==> id !in w.ids)
      && (!(e.Open? && e.id == id) ==> id in w.r.sessions)
      && (!(e.Open? && e.id == id) && !(e.Publish? && e.id == id && !w.r.sessions[id].publishes) ==> w'.r.sessions[id] == w.r.sessions[id])
  {
    if e.Open? || e.Publish? {
      hide Capped, Overflow, Closed, Forgotten;
    } else {
      hide Capped, Overflow, Counting, Metrics, Bytes.Since, Opened, Published;
    }
  }

  lemma RecordOne(k: Books, e: Event, id: string)
    requires AllNewest(k) && LiveOk(k.w) && Ordered(k.w) && Enabled(k.w, e)
    requires e.Open? || e.Publish? || e.Close? || e.Forget?
    requires id in Apply(k, e).w.r.sessions
    ensures NewestOk(Apply(k, e), id)
  {
    hide LiveOk, Ordered;
    RecordFields(k.w, e, id);
    hide UsageRuns.Apply, Enabled;
    if (e.Open? && e.id == id) || (e.Publish? && e.id == id && !k.w.r.sessions[id].publishes) {
      NoneYet(k, id);
    } else {
      NewestFrame(k, Apply(k, e), id);
    }
  }

  /** What a report changes. */
  lemma RevalidateFields(w: World, e: Event)
    requires Enabled(w, e) && e.Revalidate?
    ensures
      var w', r := UsageRuns.Apply(w, e), w.r;
      && w'.acked == w.acked && w'.refused == w.refused && w'.flight == w.flight && w'.ids == w.ids
      && Last(w', e.id) == e.b && Last(w, e.id).AtMost(e.b) && (forall x :: x != e.id ==> Last(w', x) == Last(w, x))
      && w'.r.sessions.Keys == r.sessions.Keys
      && (forall x :: x in r.sessions && x != e.id ==> w'.r.sessions[x] == r.sessions[x])
      && (e.id in r.sessions ==> w'.r.sessions[e.id].publishes == r.sessions[e.id].publishes)
      && (e.id !in r.sessions || !r.sessions[e.id].publishes ==> w'.r.latest == r.latest)
      && (e.id in r.sessions && r.sessions[e.id].publishes ==>
            var n := Note(e.id, r.sessions[e.id].kid, e.b, r.sessions[e.id].counted);
            && w'.r.sessions[e.id].(seen := 0) == r.sessions[e.id].(seen := 0)
            && w'.r.latest == if n.Grew() then r.latest[e.id := RecordOf(n)] else r.latest)
  {
    hide Counting;
  }

  function RecordOf(n: Note): Record {
    UsageSoFar(n.id, n.kid, Bytes(Beyond(n.bytes.sent, n.share.sent), Beyond(n.bytes.received, n.share.received)))
  }

  lemma RevalidateNewest(k: Books, e: Event)
    requires AllNewest(k) && LiveOk(k.w) && Ordered(k.w) && Enabled(k.w, e) && e.Revalidate?
    ensures AllNewest(Apply(k, e))
  {
    var k' := Apply(k, e);
    RevalidateFields(k.w, e);
    hide UsageRuns.Apply, Enabled, LiveOk, Ordered;
    forall id | id in k'.w.r.sessions
      ensures NewestOk(k', id)
    {
      if id != e.id {
        NewestFrame(k, k', id);
      } else if k.w.r.sessions[id].publishes {
        ReportNewest(k, k', id);
      } else {
        NoneYet(k, id);
      }
    }
    assert k'.newest.Keys <= k'.w.ids by {
      LiveIds(k.w);
    }
  }

  lemma LiveIds(w: World)
    requires LiveOk(w)
    ensures w.r.sessions.Keys <= w.ids
  {
  }

  /** A report takes the place of what waits; one with nothing to report finds nothing there. */
  lemma ReportNewest(k: Books, k': Books, id: string)
    requires id in k.w.r.sessions && NewestOk(k, id) && id in k'.w.r.sessions && id in k'.newest
    requires k.w.r.sessions[id].publishes && Fits(k', id, k'.newest[id])
    requires k'.newest[id].share == k.w.r.sessions[id].counted && Last(k.w, id).AtMost(k'.newest[id].bytes)
    requires k'.w.flight == k.w.flight
    requires k'.w.r.latest == if k'.newest[id].Grew() then k.w.r.latest[id := RecordOf(k'.newest[id])] else k.w.r.latest
    ensures NewestOk(k', id)
  {
    if k'.newest[id].Grew() {
      assert Somewhere(k'.w, RecordOf(k'.newest[id])) && Carries(RecordOf(k'.newest[id]), k'.newest[id]);
    } else {
      assert id in k.newest ==> !k.newest[id].Grew();
    }
  }

  // ----- flushes -----

  lemma SnapshotNewest(k: Books, e: Event)
    requires AllNewest(k) && Ordered(k.w) && Enabled(k.w, e) && e.Snapshot?
    ensures AllNewest(Apply(k, e))
  {
    var k' := Apply(k, e);
    SnapshotTakesEverything(k.w, e.ids, e.kids);
    LatestKnown(k.w);
    SnapshotReports(k.w, e.ids, e.kids);
    hide Outgoing, Totals, Ordered, Known;
    forall id | id in k'.w.r.sessions
      ensures NewestOk(k', id)
    {
      assert NewestOk(k, id);
      if id in k.newest && k.newest[id].Grew() {
        var x :| Somewhere(k.w, x) && Carries(x, k.newest[id]);
        assert Somewhere(k'.w, x);
      }
    }
  }

  lemma SnapshotReports(w: World, ids: seq<string>, kids: seq<string>)
    requires Ordered(w) && Enabled(w, Snapshot(ids, kids))
    ensures w.flight == []
    ensures forall x :: x in AfterSnapshot(w, ids, kids).flight && x.UsageSoFar? ==> x.id in w.r.latest && w.r.latest[x.id] == x
  {
    LatestShape(w);
    forall x | x in AfterSnapshot(w, ids, kids).flight && x.UsageSoFar?
      ensures x.id in w.r.latest && w.r.latest[x.id] == x
    {
      OutgoingFrom(w.r, ids, kids, x);
    }
  }

  lemma AnsweredNewest(k: Books, outcome: Outcome)
    requires AllNewest(k) && k.w.flight != [] && outcome != Unsent
    ensures AllNewest(Apply(k, Send(outcome)))
  {
    var k' := Apply(k, Send(outcome));
    AcknowledgedRest(k.w.r, k.w.flight[..BatchSize(k.w)], k.w.totals);
    hide Acknowledged, Requeued;
    assert k.w.flight == k.w.flight[..BatchSize(k.w)] + k.w.flight[BatchSize(k.w)..];
    forall id | id in k'.w.r.sessions
      ensures NewestOk(k', id)
    {
      assert NewestOk(k, id);
      if id in k.newest && k.newest[id].Grew() {
        var x :| Somewhere(k.w, x) && Carries(x, k.newest[id]);
        assert Somewhere(k'.w, x);
      }
    }
  }

  lemma {:induction false} PutBackHas(latest: map<string, Record>, sessions: map<string, Session>, rs: seq<Record>, id: string)
    ensures id in latest ==> id in PutBack(latest, sessions, rs)
    ensures id in sessions && (exists x :: x in rs && x.UsageSoFar? && x.id == id) ==> id in PutBack(latest, sessions, rs)
    decreases |rs|
  {
    if rs != [] {
      var r := rs[0];
      var next := if r.UsageSoFar? && r.id !in latest && r.id in sessions then latest[r.id := r] else latest;
      PutBackHas(next, sessions, rs[1..], id);
      assert rs == [r] + rs[1..];
    }
  }

  lemma UnsentNewest(k: Books)
    requires AllNewest(k) && k.w.flight != []
    ensures AllNewest(Apply(k, Send(Unsent)))
  {
    var k', r := Apply(k, Send(Unsent)), k.w.r;
    forall id | id in k'.w.r.sessions
      ensures NewestOk(k', id)
    {
      UnsentOne(k, k', id);
    }
  }

  lemma UnsentOne(k: Books, k': Books, id: string)
    requires id in k.w.r.sessions && NewestOk(k, id) && k'.newest == k.newest
    requires k'.w.r.sessions == k.w.r.sessions && k'.w.flight == [] && k'.w.acked == k.w.acked && k'.w.refused == k.w.refused
    requires k'.w.last == k.w.last && k'.w.r.latest == PutBack(k.w.r.latest, k.w.r.sessions, k.w.flight)
    ensures NewestOk(k', id)
  {
    PutBackHas(k.w.r.latest, k.w.r.sessions, k.w.flight, id);
    if id in k'.w.r.latest {
      PutBackIs(k.w.r.latest, k.w.r.sessions, k.w.flight, id);
    }
    hide PutBack;
    if id in k.newest && k.newest[id].Grew() {
      var x :| Somewhere(k.w, x) && Carries(x, k.newest[id]);
      if x in k.w.acked || x in k.w.refused {
        assert Somewhere(k'.w, x);
      } else {
        assert id in k'.w.r.latest;
        assert Somewhere(k'.w, k'.w.r.latest[id]);
      }
    }
  }

  // ----- over every run -----

  /** No step but a report makes a usage record. */
  lemma NothingNew(w: World, e: Event, x: Record)
    requires Ordered(w) && Enabled(w, e) && !e.Revalidate? && x.UsageSoFar? && Somewhere(UsageRuns.Apply(w, e), x)
    ensures Somewhere(w, x)
  {
    if e.Snapshot? {
      SnapshotReports(w, e.ids, e.kids);
      hide Ordered, Outgoing, Totals;
    } else if e.Send? {
      NothingNewSent(w, e.outcome, x);
      hide Ordered, Somewhere;
    } else if e.Close? || e.Forget? {
      hide Ordered, Capped, Counting, Opened, Published, Metrics;
    } else {
      hide Ordered, Capped, Closed, Forgotten;
    }
  }

  lemma NothingNewSent(w: World, outcome: Outcome, x: Record)
    requires x.UsageSoFar? && Somewhere(AfterSend(w, outcome), x)
    ensures Somewhere(w, x)
  {
    var n := BatchSize(w);
    assert w.flight == w.flight[..n] + w.flight[n..];
    RequeuedFrom(w, x);
    AcknowledgedRest(w.r, w.flight[..n], w.totals);
    hide Acknowledged, Requeued;
  }

  lemma NotesStep(k: Books, e: Event)
    requires NotesOk(k) && Ordered(k.w) && Enabled(k.w, e)
    ensures NotesOk(Apply(k, e))
  {
    var k' := Apply(k, e);
    forall x | Somewhere(k'.w, x) && x.UsageSoFar?
      ensures exists n :: n in k'.notes && Carries(x, n)
    {
      NotesOne(k, e, x);
    }
  }

  lemma NotesOne(k: Books, e: Event, x: Record)
    requires NotesOk(k) && Ordered(k.w) && Enabled(k.w, e) && Somewhere(Apply(k, e).w, x) && x.UsageSoFar?
    ensures exists n :: n in Apply(k, e).notes && Carries(x, n)
  {
    hide Ordered;
    if !e.Revalidate? {
      NothingNew(k.w, e, x);
      hide UsageRuns.Apply;
    } else {
      RevalidateFields(k.w, e);
      hide UsageRuns.Apply, Enabled;
      if Somewhere(k.w, x) {
        var n :| n in k.notes && Carries(x, n);
        assert n in Apply(k, e).notes;
      } else {
        var n := Note(e.id, k.w.r.sessions[e.id].kid, e.b, k.w.r.sessions[e.id].counted);
        assert n in Apply(k, e).notes && Carries(x, n);
      }
    }
  }

  ghost predicate Inv(k: Books) { UsageRuns.Inv(k.w) && NotesOk(k) && AllNewest(k) }

  lemma ApplyInv(k: Books, e: Event)
    requires Inv(k) && Enabled(k.w, e)
    ensures Inv(Apply(k, e))
  {
    UsageTheorems.ApplyInv(k.w, e);
    NotesStep(k, e);
    hide ViewersOk, PlacedOk, NotesOk, AllNewest, Ordered, LiveOk;
    match e
    case Open(_, _, _, _) => RecordNewest(k, e);
    case Publish(_) => RecordNewest(k, e);
    case Close(_, _, _, _) => RecordNewest(k, e);
    case Forget(_) => RecordNewest(k, e);
    case Revalidate(_, _, _, _) => RevalidateNewest(k, e);
    case Snapshot(_, _) => SnapshotNewest(k, e);
    case Send(outcome) =>
      if outcome == Unsent {
        UnsentNewest(k);
      } else {
        AnsweredNewest(k, outcome);
      }
  }

  lemma {:induction false} RunInv(k: Books, es: seq<Event>, k': Books)
    requires Inv(k) && Runs(k, es, k')
    ensures Inv(k')
    decreases |es|
  {
    hide Inv, Apply, Enabled;
    if es != [] {
      ApplyInv(k, es[0]);
      RunInv(Apply(k, es[0]), es[1..], k');
    }
  }

  lemma StartInv()
    ensures Inv(START_BOOKS)
  {
    UsageRuns.StartInv();
  }

  lemma ReachedInv(es: seq<Event>, k: Books)
    requires Runs(START_BOOKS, es, k)
    ensures Inv(k)
  {
    hide *;
    StartInv();
    RunInv(START_BOOKS, es, k);
  }

  /** Every usage record accepted, refused, being sent or waiting is of some report of its session, and carries in each direction what was reported beyond the share counted among its key's viewers. */
  lemma UsageCarriesAReport(es: seq<Event>, k: Books, x: Record)
    requires Runs(START_BOOKS, es, k) && x.UsageSoFar?
    requires x in k.w.acked || x in k.w.refused || x in k.w.flight || (x.id in k.w.r.latest && k.w.r.latest[x.id] == x)
    ensures exists n ::
      && n in k.notes && n.id == x.id && n.kid == x.kid
      && x.metrics.sent == Beyond(n.bytes.sent, n.share.sent)
      && x.metrics.received == Beyond(n.bytes.received, n.share.received)
  {
    ReachedInv(es, k);
    hide Runs, AllNewest, UsageRuns.Inv;
    assert Somewhere(k.w, x);
    var n :| n in k.notes && Carries(x, n);
    assert n.id == x.id;
  }

  /** The newest report of a live publisher, if it moved anything of its own, waits, is being sent or was answered, whatever failed meanwhile. */
  lemma NewestReportIsNeverLost(es: seq<Event>, k: Books, id: string)
    requires Runs(START_BOOKS, es, k) && id in k.w.r.sessions && id in k.newest && k.newest[id].Grew()
    ensures exists x ::
      && (x in k.w.acked || x in k.w.refused || x in k.w.flight || (id in k.w.r.latest && k.w.r.latest[id] == x))
      && x.UsageSoFar? && x.id == id && x.kid == k.w.r.sessions[id].kid
      && x.metrics.sent == Beyond(k.newest[id].bytes.sent, k.w.r.sessions[id].counted.sent)
      && x.metrics.received == Beyond(k.newest[id].bytes.received, k.w.r.sessions[id].counted.received)
  {
    ReachedInv(es, k);
    hide Runs, NotesOk, UsageRuns.Inv;
    assert NewestOk(k, id);
    var x :| Somewhere(k.w, x) && Carries(x, k.newest[id]);
    assert x.id == id;
  }
}
