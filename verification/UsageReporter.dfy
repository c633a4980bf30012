/** The reporter as an object whose maps and queue are updated in place; each method body is one critical section. */
module UsageReporter {
  import opened Prelude
  import opened Usage

  class UsageReporter {
    var sessions: map<string, Session>
    var events: seq<Record>
    var latest: map<string, Record>
    var viewers: map<string, Viewer>
    var closed: map<string, int>

    constructor ()
      ensures State() == FRESH
    {
      sessions, events, latest, viewers, closed := map[], [], map[], map[], map[];
    }

    ghost function State(): Reporter
      reads this
    {
      Reporter(sessions, events, latest, viewers, closed)
    }

    method Open(id: string, kid: string, publishes: bool, now: int)
      modifies this`sessions, this`events
      ensures State() == Opened(old(State()), id, kid, publishes, now)
    {
      if id in closed {
        return;
      }
      sessions := sessions[id := Session(kid, publishes, now, ZERO)];
      if publishes {
        AppendEvent(SessionOpen(id, kid));
      }
    }

    method Publishing(id: string)
      modifies this`sessions, this`events
      ensures State() == Published(old(State()), id)
    {
      if id !in sessions || sessions[id].publishes {
        return;
      }
      var s := sessions[id].(publishes := true);
      sessions := sessions[id := s];
      AppendEvent(SessionOpen(id, s.kid));
    }

    method Revalidate(id: string, b: Bytes, live: bool, now: int)
      modifies this`sessions, this`latest, this`viewers
      ensures State() == Revalidated(old(State()), id, b, live, now)
    {
      if id !in sessions {
        return;
      }
      var s := sessions[id];
      if live {
        s := s.(seen := now);
      }
      if !s.publishes {
        s := CountViewer(s, b);
      } else if b.sent > s.counted.sent || b.received > s.counted.received {
        latest := latest[id := UsageSoFar(id, s.kid, Metrics(b.Since(s.counted)))];
      }
      sessions := sessions[id := s];
    }

    method Close(id: string, b: Bytes, reason: string, now: int) returns (known: bool)
      modifies this`sessions, this`events, this`latest, this`viewers, this`closed
      ensures State() == Closed(old(State()), id, b, reason, now)
      ensures known == (id in old(sessions))
    {
      closed := closed[id := now];
      if id !in sessions {
        assert sessions - {id} == sessions;
        return false;
      }
      var s := sessions[id];
      sessions := sessions - {id};
      if !s.publishes {
        var _ := CountViewer(s, b);
        return true;
      }
      latest := latest - {id};
      AppendEvent(SessionClose(id, s.kid, Metrics(b.Since(s.counted)), reason));
      return true;
    }

    method CountViewer(s: Session, b: Bytes) returns (s': Session)
      modifies this`viewers
      ensures viewers == Counting(old(State()), s, b)
      ensures s' == s.(counted := s.counted.Join(b))
    {
      var t := if s.kid in viewers then viewers[s.kid] else Viewer(ZERO, ZERO, false);
      var sent, countedSent := CountDirection(t.total.sent, s.counted.sent, b.sent);
      var received, countedReceived := CountDirection(t.total.received, s.counted.received, b.received);
      s' := s.(counted := Bytes(countedSent, countedReceived));
      viewers := viewers[s.kid := t.(total := Bytes(sent, received))];
    }

    method AppendEvent(rec: Record)
      modifies this`events
      ensures events == Capped(old(events) + [rec])
    {
      events := events + [rec];
      if |events| > MAX_PENDING {
        events := events[|events| - MAX_PENDING..];
      }
    }

    method ForgetStale(now: int)
      modifies this`sessions, this`closed
      ensures State() == Forgotten(old(State()), now)
    {
      var cutoff := now - GRACE;
      ghost var was := sessions;
      var left := sessions.Keys;
      while left != {}
        invariant left <= was.Keys
        invariant sessions == map id | id in was && (id in left || was[id].seen >= cutoff) :: was[id]
        invariant closed == old(closed)
      {
        var id :| id in left;
        if sessions[id].seen < cutoff {
          sessions := sessions - {id};
        }
        left := left - {id};
      }
      ghost var wasClosed := closed;
      left := closed.Keys;
      while left != {}
        invariant left <= wasClosed.Keys
        invariant closed == map id | id in wasClosed && (id in left || wasClosed[id] >= cutoff) :: wasClosed[id]
        invariant sessions == map id | id in was && was[id].seen >= cutoff :: was[id]
      {
        var id :| id in left;
        if closed[id] < cutoff {
          closed := closed - {id};
        }
        left := left - {id};
      }
    }

    /** The first critical section of flush, and the order in which it lays out what it took. */
    method Snapshot() returns (all: seq<Record>, totals: map<string, Bytes>, ghost ids: seq<string>, ghost kids: seq<string>)
      modifies this`events, this`latest
      ensures Lists(ids, old(latest).Keys) && Lists(kids, Unsettled(old(State())))
      ensures totals == Totals(old(State())) && all == Outgoing(old(State()), ids, kids)
      ensures State() == Emptied(old(State()))
    {
      var taken, reports := events, latest;
      var vs: seq<Record>;
      vs, totals, kids := ChangedTotals();
      events, latest := [], map[];
      all := Pick(Opens, taken);
      var us: seq<Record>;
      us, ids := Reports(reports);
      all := all + us;
      all := all + vs;
      var cs := Pick(Closes, taken);
      all := all + cs;
    }

    method ChangedTotals() returns (vs: seq<Record>, totals: map<string, Bytes>, ghost kids: seq<string>)
      ensures Lists(kids, Unsettled(State())) && totals == Totals(State()) && vs == ViewersIn(totals, kids)
    {
      vs, totals, kids := [], map[], [];
      var left := viewers.Keys;
      while left != {}
        invariant left <= viewers.Keys
        invariant totals == ChangedOutside(left)
        invariant Lists(kids, totals.Keys) && vs == ViewersIn(totals, kids)
      {
        var kid :| kid in left;
        var t := viewers[kid];
        if !(t.sent && t.total == t.reported) {
          TotalsSnoc(totals, kids, kid, t.total);
          vs := vs + [Viewers(kid, Metrics(t.total))];
          totals := totals[kid := t.total];
          kids := kids + [kid];
        }
        left := left - {kid};
        assert totals == ChangedOutside(left);
      }
    }

    /** The changed totals of the keys already looked at. */
    ghost function ChangedOutside(left: set<string>): map<string, Bytes>
      reads this
    {
      map kid | kid in Unsettled(State()) && kid !in left :: viewers[kid].total
    }

    method Acknowledge(batch: seq<Record>, totals: map<string, Bytes>)
      modifies this`viewers
      ensures State() == Acknowledged(old(State()), batch, totals)
    {
      for i := 0 to |batch|
        invariant State() == Acknowledged(old(State()), batch[..i], totals)
      {
        NamesSnoc(batch, i);
        var rec := batch[i];
        if rec.Viewers? && rec.kid in viewers {
          var total := if rec.kid in totals then totals[rec.kid] else ZERO;
          viewers := viewers[rec.kid := viewers[rec.kid].(reported := total, sent := true)];
        }
        assert viewers == Acknowledged(old(State()), batch[..i + 1], totals).viewers;
      }
      assert batch[..|batch|] == batch;
    }

    /** Recordings one after the other. */
    method Record(xs: seq<Recording>)
      modifies this
      ensures State() == RecordedAll(old(State()), xs)
    {
      assert xs[0..] == xs;
      for i := 0 to |xs|
        invariant RecordedAll(State(), xs[i..]) == RecordedAll(old(State()), xs)
      {
        assert xs[i..][0] == xs[i] && xs[i..][1..] == xs[i + 1..];
        hide Opened, Published, Revalidated, Closed, Forgotten;
        match xs[i] {
          case RecordOpen(id, kid, publishes, now) => Open(id, kid, publishes, now);
          case RecordPublishing(id) => Publishing(id);
          case RecordRevalidate(id, b, live, now) => Revalidate(id, b, live, now);
          case RecordClose(id, b, reason, now) => var _ := Close(id, b, reason, now);
          case RecordForget(now) => ForgetStale(now);
        }
      }
    }

    /** A whole flush, whatever is recorded meanwhile: batch after batch, until one is not answered. */
    method Flush(fate: Fate) returns (ok: bool, ghost ids: seq<string>, ghost kids: seq<string>)
      modifies this
      ensures Lists(ids, old(latest).Keys) && Lists(kids, Unsettled(old(State())))
      ensures (State(), ok) == Flushed(Emptied(old(State())), Outgoing(old(State()), ids, kids), Totals(old(State())), 0, fate)
    {
      var all: seq<Record>, totals: map<string, Bytes>;
      all, totals, ids, kids := Snapshot();
      hide Outgoing, Emptied, Totals, Acknowledged, Requeued, Lists, RecordedAll;
      ghost var emptied := State();
      var start, k := 0, 0;
      assert all[0..] == all;
      while start < |all|
        invariant 0 <= start <= |all|
        invariant Flushed(State(), all[start..], totals, k, fate) == Flushed(emptied, all, totals, 0, fate)
      {
        var end := Min(start + MAX_BATCH, |all|);
        BatchOf(all, start);
        Record(fate.recorded(k));
        match fate.outcome(k) {
          case Unsent =>
            Requeue(all[start..]);
            return false, ids, kids;
          case Accepted => Acknowledge(all[start..end], totals);
          case Malformed => Acknowledge(all[start..end], totals);
        }
        start, k := end, k + 1;
      }
      return true, ids, kids;
    }

    /** Unsent records go back before anything recorded since. */
    method Requeue(unsent: seq<Record>)
      modifies this`events, this`latest
      ensures State() == Requeued(old(State()), unsent)
    {
      var back: seq<Record> := [];
      assert unsent[0..] == unsent;
      for i := 0 to |unsent|
        invariant events == old(events) && back == Only(Events, unsent[..i])
        invariant PutBack(latest, sessions, unsent[i..]) == PutBack(old(latest), sessions, unsent)
      {
        var rec := unsent[i];
        assert unsent[..i + 1][..i] == unsent[..i];
        assert unsent[i..][0] == rec && unsent[i..][1..] == unsent[i + 1..];
        if IsEvent(rec) {
          back := back + [rec];
        } else if rec.UsageSoFar? {
          if rec.id !in latest {
            if rec.id in sessions {
              latest := latest[rec.id := rec];
            }
          }
        }
      }
      assert unsent[..|unsent|] == unsent;
      events := back + events;
      if |events| > MAX_PENDING {
        events := events[|events| - MAX_PENDING..];
      }
    }
  }

  /** One direction of a session's bytes: only what goes beyond what was counted is added, and then counted. */
  method CountDirection(total: nat, counted: nat, b: nat) returns (total': nat, counted': nat)
    ensures total' == total + b - Min(b, counted) && counted' == Max(counted, b)
  {
    total', counted' := total, counted;
    if b > counted {
      total' := total + b - counted;
      counted' := b;
    }
  }

  /** The batch cut out of the whole is the front of the rest. */
  lemma BatchOf(all: seq<Record>, start: nat)
    requires start <= |all|
    ensures
      var n, end := Min(MAX_BATCH, |all[start..]|), Min(start + MAX_BATCH, |all|);
      all[start..][..n] == all[start..end] && all[start..][n..] == all[end..]
  {
  }

  lemma ListsSnoc(ids: seq<string>, keys: set<string>, k: string)
    requires Lists(ids, keys) && k !in keys
    ensures Lists(ids + [k], keys + {k})
  {
  }

  lemma TotalsSnoc(totals: map<string, Bytes>, kids: seq<string>, kid: string, total: Bytes)
    requires Lists(kids, totals.Keys) && kid !in totals
    ensures Lists(kids + [kid], totals[kid := total].Keys)
    ensures ViewersIn(totals[kid := total], kids + [kid]) == ViewersIn(totals, kids) + [Viewers(kid, Metrics(total))]
  {
  }

  lemma NamesSnoc(batch: seq<Record>, i: nat)
    requires i < |batch|
    ensures forall kid :: Names(batch[..i + 1], kid) <==> Names(batch[..i], kid) || (batch[i].Viewers? && batch[i].kid == kid)
  {
    forall kid
      ensures Names(batch[..i + 1], kid) <==> Names(batch[..i], kid) || (batch[i].Viewers? && batch[i].kid == kid)
    {
      if k :| 0 <= k < |batch[..i]| && batch[..i][k].Viewers? && batch[..i][k].kid == kid {
        assert batch[..i + 1][k].Viewers? && batch[..i + 1][k].kid == kid;
      }
      if batch[i].Viewers? && batch[i].kid == kid {
        assert batch[..i + 1][i].Viewers?;
      }
    }
  }

  method Reports(latest: map<string, Record>) returns (us: seq<Record>, ghost ids: seq<string>)
    ensures Lists(ids, latest.Keys) && us == LatestIn(latest, ids)
    ensures forall id :: id in latest ==> latest[id] in us
  {
    us, ids := [], [];
    var left := latest.Keys;
    while left != {}
      invariant left <= latest.Keys
      invariant Lists(ids, latest.Keys - left)
      invariant us == LatestIn(latest, ids)
      invariant forall id :: id in latest && id !in left ==> latest[id] in us
    {
      var id :| id in left;
      ListsSnoc(ids, latest.Keys - left, id);
      us := us + [latest[id]];
      ids := ids + [id];
      assert latest.Keys - left + {id} == latest.Keys - (left - {id});
      left := left - {id};
    }
  }

  /** The loops that pick a flush's opens, and later its closes, out of the queue. */
  method Pick(k: Kind, events: seq<Record>) returns (rs: seq<Record>)
    ensures rs == Only(k, events)
  {
    rs := [];
    for i := 0 to |events|
      invariant rs == Only(k, events[..i])
    {
      assert events[..i + 1][..i] == events[..i];
      if k.Has(events[i]) {
        rs := rs + [events[i]];
      }
    }
    assert events[..|events|] == events;
  }
}
