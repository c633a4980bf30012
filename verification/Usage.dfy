/**
 * The relay's usage reporter (internal/auth/usage.go): byte accounting split between
 * per-key viewer totals and per-session records, and the outbox that batches,
 * coalesces, puts back and caps them. Byte counts are unbounded naturals.
 */
module Usage {
  import opened Prelude

  const MAX_BATCH := 500
  const MAX_PENDING := 50_000
  /** Five minutes, in seconds, of silence after which a session is forgotten. */
  const GRACE := 300
  const MAX_INT64 := 0x7fff_ffff_ffff_ffff

  datatype Bytes = Bytes(sent: nat, received: nat) {
    predicate AtMost(b: Bytes) { sent <= b.sent && received <= b.received }

    function Plus(b: Bytes): Bytes { Bytes(sent + b.sent, received + b.received) }

    /** What was moved beyond base, each direction at least zero. */
    function Since(base: Bytes): Bytes {
      Bytes(sent - Min(sent, base.sent), received - Min(received, base.received))
    }

    function Join(b: Bytes): Bytes { Bytes(Max(sent, b.sent), Max(received, b.received)) }
  }

  const ZERO := Bytes(0, 0)

  /** The metrics a record carries: both directions, clamped to an int64. */
  function Metrics(b: Bytes): Bytes { Bytes(Min(b.sent, MAX_INT64), Min(b.received, MAX_INT64)) }

  datatype Session = Session(kid: string, publishes: bool, seen: int, counted: Bytes)

  datatype Viewer = Viewer(total: Bytes, reported: Bytes, sent: bool) {
    /** The receiver has acknowledged exactly this total. */
    predicate Settled() { sent && total == reported }
  }

  datatype Record =
    | SessionOpen(id: string, kid: string)
    | UsageSoFar(id: string, kid: string, metrics: Bytes)
    | SessionClose(id: string, kid: string, metrics: Bytes, reason: string)
    | Viewers(kid: string, metrics: Bytes)

  predicate IsEvent(r: Record) { r.SessionOpen? || r.SessionClose? }

  datatype Reporter = Reporter(
    sessions: map<string, Session>,
    events: seq<Record>,            // opens and closes, in order
    latest: map<string, Record>,    // latest cumulative report per session
    viewers: map<string, Viewer>,   // by kid
    closed: map<string, int>)       // when each ended session was closed

  const FRESH := Reporter(map[], [], map[], map[], map[])

  // ----- recording -----

  /** The queue past the cap loses its oldest. */
  function Overflow(events: seq<Record>): nat {
    if |events| > MAX_PENDING then |events| - MAX_PENDING else 0
  }

  function Capped(events: seq<Record>): (r: seq<Record>)
    ensures |r| <= MAX_PENDING
  {
    events[Overflow(events)..]
  }

  function Opened(r: Reporter, id: string, kid: string, publishes: bool, now: int): Reporter {
    if id in r.closed then r
    else
      r.(sessions := r.sessions[id := Session(kid, publishes, now, ZERO)],
         events := if publishes then Capped(r.events + [SessionOpen(id, kid)]) else r.events)
  }

  function Published(r: Reporter, id: string): Reporter {
    if id !in r.sessions || r.sessions[id].publishes then r
    else
      r.(sessions := r.sessions[id := r.sessions[id].(publishes := true)],
         events := Capped(r.events + [SessionOpen(id, r.sessions[id].kid)]))
  }

  function ViewerOf(r: Reporter, kid: string): Viewer {
    if kid in r.viewers then r.viewers[kid] else Viewer(ZERO, ZERO, false)
  }

  /** The viewer totals once what s moved since it was last counted is added. */
  function Counting(r: Reporter, s: Session, b: Bytes): map<string, Viewer> {
    var t := ViewerOf(r, s.kid);
    r.viewers[s.kid := t.(total := t.total.Plus(b.Since(s.counted)))]
  }

  function Revalidated(r: Reporter, id: string, b: Bytes, live: bool, now: int): Reporter {
    if id !in r.sessions then r
    else
      var s := if live then r.sessions[id].(seen := now) else r.sessions[id];
      if !s.publishes then
        r.(viewers := Counting(r, s, b), sessions := r.sessions[id := s.(counted := s.counted.Join(b))])
      else
        r.(latest := if b.AtMost(s.counted) then r.latest else r.latest[id := UsageSoFar(id, s.kid, Metrics(b.Since(s.counted)))],
           sessions := r.sessions[id := s])
  }

  function Closed(r: Reporter, id: string, b: Bytes, reason: string, now: int): Reporter {
    var r1 := r.(closed := r.closed[id := now], sessions := r.sessions - {id});
    if id !in r.sessions then r1
    else
      var s := r.sessions[id];
      if !s.publishes then r1.(viewers := Counting(r, s, b))
      else
        r1.(latest := r.latest - {id},
            events := Capped(r.events + [SessionClose(id, s.kid, Metrics(b.Since(s.counted)), reason)]))
  }

  function Forgotten(r: Reporter, now: int): Reporter {
    r.(sessions := map id | id in r.sessions && r.sessions[id].seen >= now - GRACE :: r.sessions[id],
       closed := map id | id in r.closed && r.closed[id] >= now - GRACE :: r.closed[id])
  }

  // ----- sending -----

  /** ids lists the keys of a map, each once, in whatever order the map was walked. */
  ghost predicate Lists(ids: seq<string>, keys: set<string>) {
    && (forall i, j :: 0 <= i < j < |ids| ==> ids[i] != ids[j])
    && (forall i :: 0 <= i < |ids| ==> ids[i] in keys)
    && (forall k :: k in keys ==> k in ids)
  }

  function Unsettled(r: Reporter): set<string> {
    set kid | kid in r.viewers && !r.viewers[kid].Settled()
  }

  function Totals(r: Reporter): map<string, Bytes> {
    map kid | kid in Unsettled(r) :: r.viewers[kid].total
  }

  /** Which records a filter keeps. */
  datatype Kind = Opens | Closes | Events {
    predicate Has(r: Record) {
      match this
      case Opens => r.SessionOpen?
      case Closes => r.SessionClose?
      case Events => IsEvent(r)
    }
  }

  function Only(k: Kind, rs: seq<Record>): seq<Record> {
    if rs == [] then []
    else Only(k, rs[..|rs| - 1]) + (if k.Has(rs[|rs| - 1]) then [rs[|rs| - 1]] else [])
  }

  function LatestIn(latest: map<string, Record>, ids: seq<string>): seq<Record>
    requires forall i :: 0 <= i < |ids| ==> ids[i] in latest
  {
    seq(|ids|, i requires 0 <= i < |ids| => latest[ids[i]])
  }

  function ViewersIn(totals: map<string, Bytes>, kids: seq<string>): seq<Record>
    requires forall i :: 0 <= i < |kids| ==> kids[i] in totals
  {
    seq(|kids|, i requires 0 <= i < |kids| => Viewers(kids[i], Metrics(totals[kids[i]])))
  }

  /** Everything pending, in the order a flush sends it: opens, usage, viewer totals, closes. */
  function Outgoing(r: Reporter, ids: seq<string>, kids: seq<string>): seq<Record>
    requires forall i :: 0 <= i < |ids| ==> ids[i] in r.latest
    requires forall i :: 0 <= i < |kids| ==> kids[i] in Totals(r)
  {
    Only(Opens, r.events) + LatestIn(r.latest, ids) + ViewersIn(Totals(r), kids) + Only(Closes, r.events)
  }

  function Emptied(r: Reporter): Reporter { r.(events := [], latest := map[]) }

  function Taken(totals: map<string, Bytes>, kid: string): Bytes { if kid in totals then totals[kid] else ZERO }

  predicate Names(batch: seq<Record>, kid: string) {
    exists i :: 0 <= i < |batch| && batch[i].Viewers? && batch[i].kid == kid
  }

  /** A batch answered, or refused as malformed: the viewer totals it names count as reported, as they were when taken. */
  function Acknowledged(r: Reporter, batch: seq<Record>, totals: map<string, Bytes>): Reporter {
    r.(viewers := map kid | kid in r.viewers ::
      if Names(batch, kid) then r.viewers[kid].(reported := Taken(totals, kid), sent := true) else r.viewers[kid])
  }

  /** The reports of live sessions with no newer one, put back. */
  function PutBack(latest: map<string, Record>, sessions: map<string, Session>, rs: seq<Record>): map<string, Record>
    decreases |rs|
  {
    if rs == [] then latest
    else
      var r := rs[0];
      PutBack(if r.UsageSoFar? && r.id !in latest && r.id in sessions then latest[r.id := r] else latest, sessions, rs[1..])
  }

  function Requeued(r: Reporter, unsent: seq<Record>): Reporter {
    r.(events := Capped(Only(Events, unsent) + r.events), latest := PutBack(r.latest, r.sessions, unsent))
  }

  /** How sending a batch went: answered, refused as malformed, or anything else. */
  datatype Outcome = Accepted | Malformed | Unsent

  /** Something recorded while a flush is under way. */
  datatype Recording =
    | RecordOpen(id: string, kid: string, publishes: bool, now: int)
    | RecordPublishing(id: string)
    | RecordRevalidate(id: string, b: Bytes, live: bool, now: int)
    | RecordClose(id: string, b: Bytes, reason: string, now: int)
    | RecordForget(now: int)

  function Recorded(r: Reporter, x: Recording): Reporter {
    match x
    case RecordOpen(id, kid, publishes, now) => Opened(r, id, kid, publishes, now)
    case RecordPublishing(id) => Published(r, id)
    case RecordRevalidate(id, b, live, now) => Revalidated(r, id, b, live, now)
    case RecordClose(id, b, reason, now) => Closed(r, id, b, reason, now)
    case RecordForget(now) => Forgotten(r, now)
  }

  function RecordedAll(r: Reporter, xs: seq<Recording>): Reporter
    decreases |xs|
  {
    if xs == [] then r else RecordedAll(Recorded(r, xs[0]), xs[1..])
  }

  /** What befalls the batches of a flush, by their number: what is recorded before the answer to each is taken in, and how sending it goes. */
  datatype Fate = Fate(recorded: nat -> seq<Recording>, outcome: nat -> Outcome)

  /** What sending the rest of a flush leaves, batch k first, and whether all of it was answered. */
  function Flushed(r: Reporter, rest: seq<Record>, totals: map<string, Bytes>, k: nat, fate: Fate): (Reporter, bool)
    decreases |rest|
  {
    if rest == [] then (r, true)
    else
      var r1 := RecordedAll(r, fate.recorded(k));
      if fate.outcome(k) == Unsent then (Requeued(r1, rest), false)
      else
        var n := Min(MAX_BATCH, |rest|);
        Flushed(Acknowledged(r1, rest[..n], totals), rest[n..], totals, k + 1, fate)
  }
}
