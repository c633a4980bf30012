/**
 * What the reporter knows of a session and records of it, from that session's own
 * history: one small automaton for each session, next to the maps that hold them
 * all.
 */
module UsageSessions {
  import opened Prelude
  import opened Usage
  import opened UsageOrder
  import opened UsageRuns

  /** Not there; alive, with the key and role it has, when it was last heard of and what of it was counted as a viewer's; or ended, as a publisher or not. */
  datatype Life = Absent | Alive(kid: string, publishes: bool, seen: int, counted: Bytes) | Gone(at: int, published: bool)

  /** What one event makes of session id: only its own count, and the passing of five minutes. */
  function Next(id: string, life: Life, e: Event): Life {
    match e
    case Open(x, kid, publishes, now) =>
      if x == id && !life.Gone? then Alive(kid, publishes, now, Bytes(0, 0)) else life
    case Publish(x) =>
      if x == id && life.Alive? then life.(publishes := true) else life
    case Revalidate(x, b, live, now) =>
      if x != id || !life.Alive? then life
      else
        Alive(life.kid, life.publishes, if live then now else life.seen,
              if life.publishes then life.counted
              else Bytes(Max(life.counted.sent, b.sent), Max(life.counted.received, b.received)))
    case Close(x, _, _, now) => if x == id then Gone(now, life.Alive? && life.publishes) else life
    case Forget(now) =>
      if (life.Alive? && life.seen < now - 300) || (life.Gone? && life.at < now - 300) then Absent else life
    case Snapshot(_, _) => life
    case Send(_) => life
  }

  function LifeOf(id: string, life: Life, es: seq<Event>): Life
    decreases |es|
  {
    if es == [] then life else LifeOf(id, Next(id, life, es[0]), es[1..])
  }

  /** Bytes beyond a base in one direction, as a record states them. */
  function Beyond(b: nat, base: nat): nat {
    if b <= base then 0 else if b - base > MAX_INT64 then MAX_INT64 else b - base
  }

  /** The opens and closes an event records, for the session it concerns as it was. */
  function Records(life: Life, e: Event): seq<Record> {
    match e
    case Open(id, kid, publishes, _) => if publishes && !life.Gone? then [SessionOpen(id, kid)] else []
    case Publish(id) => if life.Alive? && !life.publishes then [SessionOpen(id, life.kid)] else []
    case Close(id, b, reason, _) =>
      if life.Alive? && life.publishes
      then [SessionClose(id, life.kid, Bytes(Beyond(b.sent, life.counted.sent), Beyond(b.received, life.counted.received)), reason)]
      else []
    case _ => []
  }

  predicate Agrees(r: Reporter, id: string, life: Life) {
    && (id in r.sessions <==> life.Alive?)
    && (life.Alive? ==> r.sessions[id] == Session(life.kid, life.publishes, life.seen, life.counted))
    && (id in r.closed <==> life.Gone?)
    && (life.Gone? ==> r.closed[id] == life.at && (life.published ==> id !in r.latest))
  }

  lemma AgreesOpen(r: Reporter, x: string, kid: string, publishes: bool, now: int, id: string, life: Life)
    requires Agrees(r, id, life)
    ensures Agrees(Opened(r, x, kid, publishes, now), id, Next(id, life, Open(x, kid, publishes, now)))
  {
    hide Capped;
  }

  lemma AgreesPublish(r: Reporter, x: string, id: string, life: Life)
    requires Agrees(r, id, life)
    ensures Agrees(Published(r, x), id, Next(id, life, Publish(x)))
  {
    hide Capped;
  }

  lemma AgreesRevalidate(r: Reporter, x: string, b: Bytes, live: bool, now: int, id: string, life: Life)
    requires Agrees(r, id, life)
    ensures Agrees(Revalidated(r, x, b, live, now), id, Next(id, life, Revalidate(x, b, live, now)))
  {
    hide Counting, Metrics, Bytes.Since;
  }

  lemma AgreesClose(r: Reporter, x: string, b: Bytes, reason: string, now: int, id: string, life: Life)
    requires Agrees(r, id, life)
    ensures Agrees(Closed(r, x, b, reason, now), id, Next(id, life, Close(x, b, reason, now)))
  {
    hide Counting, Metrics, Bytes.Since, Capped;
  }

  lemma AgreesForget(r: Reporter, now: int, id: string, life: Life)
    requires Agrees(r, id, life)
    ensures Agrees(Forgotten(r, now), id, Next(id, life, Forget(now)))
  {
  }

  lemma AgreesStep(w: World, e: Event, id: string, life: Life)
    requires Agrees(w.r, id, life) && Enabled(w, e) && !e.Snapshot? && !e.Send?
    ensures Agrees(Apply(w, e).r, id, Next(id, life, e))
  {
    hide Agrees, Next, Opened, Revalidated, Closed, Forgotten;
    match e
    case Open(x, kid, publishes, now) => AgreesOpen(w.r, x, kid, publishes, now, id, life);
    case Publish(x) => AgreesPublish(w.r, x, id, life);
    case Revalidate(x, b, live, now) => AgreesRevalidate(w.r, x, b, live, now, id, life);
    case Close(x, b, reason, now) => AgreesClose(w.r, x, b, reason, now, id, life);
    case Forget(now) => AgreesForget(w.r, now, id, life);
  }

  lemma AgreesFlush(w: World, e: Event, id: string, life: Life)
    requires Agrees(w.r, id, life) && Enabled(w, e) && (e.Snapshot? || e.Send?)
    ensures Agrees(Apply(w, e).r, id, life)
  {
    if e.Send? {
      AcknowledgedRest(w.r, w.flight[..BatchSize(w)], w.totals);
      if id in PutBack(w.r.latest, w.r.sessions, w.flight) {
        PutBackIs(w.r.latest, w.r.sessions, w.flight, id);
      }
      hide Acknowledged, PutBack, Capped;
    }
  }

  lemma {:induction false} RunAgrees(w: World, es: seq<Event>, w': World, id: string, life: Life)
    requires Agrees(w.r, id, life) && Runs(w, es, w')
    ensures Agrees(w'.r, id, LifeOf(id, life, es))
    decreases |es|
  {
    if es != [] {
      var e := es[0];
      if e.Snapshot? || e.Send? {
        AgreesFlush(w, e, id, life);
      } else {
        AgreesStep(w, e, id, life);
      }
      hide Agrees, Apply, Enabled, Next;
      RunAgrees(Apply(w, e), es[1..], w', id, if e.Snapshot? || e.Send? then life else Next(id, life, e));
    }
  }

  /** At every point of every run, what the reporter holds of a session is what that session's own history makes of it; and of a publisher that ended no report waits. */
  lemma SessionIsItsHistory(es: seq<Event>, w: World, id: string)
    requires Runs(START, es, w)
    ensures
      var life := LifeOf(id, Absent, es);
      && (id in w.r.sessions <==> life.Alive?)
      && (life.Alive? ==> w.r.sessions[id] == Session(life.kid, life.publishes, life.seen, life.counted))
      && (id in w.r.closed <==> life.Gone?)
      && (life.Gone? ==> w.r.closed[id] == life.at && (life.published ==> id !in w.r.latest))
  {
    RunAgrees(START, es, w, id, Absent);
    hide Runs;
  }

  predicate Concerns(e: Event, id: string) {
    match e
    case Open(x, _, _, _) => x == id
    case Publish(x) => x == id
    case Close(x, _, _, _) => x == id
    case _ => true
  }

  lemma RecordsStep(w: World, e: Event, id: string, life: Life)
    requires Agrees(w.r, id, life) && Enabled(w, e) && Concerns(e, id)
    ensures Apply(w, e).emitted == w.emitted + Records(life, e)
  {
    hide Capped, Counting, Acknowledged, Requeued, Outgoing;
  }

  /**
   * Opens and closes are recorded exactly as the session's history asks: one open
   * when it comes as a publisher or becomes one, and one close when a publisher
   * ends, carrying in each direction what it moved beyond its viewer's share.
   */
  lemma RecordedExactly(es: seq<Event>, w: World, e: Event, id: string)
    requires Runs(START, es, w) && Enabled(w, e) && Concerns(e, id)
    ensures Apply(w, e).emitted == w.emitted + Records(LifeOf(id, Absent, es), e)
  {
    RunAgrees(START, es, w, id, Absent);
    hide Runs, Agrees, Enabled, Apply, Records;
    RecordsStep(w, e, id, LifeOf(id, Absent, es));
  }
}
