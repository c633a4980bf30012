/** Every run of a session's deadline, with timers that fire at any time and callbacks that wait for the mutex. */
module DeadlineRuns {
  import opened Prelude
  import opened HeldGrants

  /** A close of the session: from which timer, and whether a grant was held since that timer was armed. */
  datatype Expiry = Expiry(timer: nat, heldSince: bool)

  datatype World = World(
    d: Deadline,
    grants: nat,           // grants recorded as held and not released
    held: nat,             // some grant was held since timers below this were armed
    watches: nat,
    watched: bool,         // a watch was started, and neither ended nor did it close the session
    expiries: seq<Expiry>,
    counted: nat,          // times the session was counted as pending
    left: nat)             // times it left the pending count

  datatype Event =
    | CountPending
    | Holding
    | Released
    | StartWatch
    | EndWatch
    | Elapse(i: nat)     // the runtime starts a timer's callback
    | RunCallback(i: nat)    // the callback gets the mutex

  const START := World(Deadline(0, false, false, None, false, []), 0, 0, 0, false, [], 0, 0)

  predicate Enabled(w: World, e: Event) {
    match e
    case CountPending => !w.d.pending
    case Released => w.grants > 0
    case Elapse(i) => i < |w.d.timers| && w.d.timers[i] == Armed
    case RunCallback(i) => i < |w.d.timers| && w.d.timers[i] == Firing
    case _ => true
  }

  function Leaves(d: Deadline): nat { if d.pending then 1 else 0 }

  function Apply(w: World, e: Event): World
    requires Enabled(w, e)
  {
    match e
    case CountPending => w.(d := w.d.(pending := true), counted := w.counted + 1)
    case Holding =>
      w.(d := Hold(w.d), grants := w.grants + 1, held := |w.d.timers|, left := w.left + Leaves(w.d))
    case Released => w.(d := Unhold(w.d), grants := w.grants - 1)
    case StartWatch => w.(d := Watch(w.d), watches := w.watches + 1, watched := true)
    case EndWatch => w.(d := Unwatch(w.d), watched := false, left := w.left + Leaves(w.d))
    case Elapse(i) => w.(d := w.d.(timers := w.d.timers[i := Firing]))
    case RunCallback(i) =>
      var (d, expires) := Callback(w.d, i);
      w.(d := d,
         watched := w.watched && !expires,
         expiries := if expires then w.expiries + [Expiry(i, i < w.held)] else w.expiries)
  }

  ghost predicate Runs(w: World, es: seq<Event>, w': World)
    decreases |es|
  {
    if es == [] then w' == w else Enabled(w, es[0]) && Runs(Apply(w, es[0]), es[1..], w')
  }

  ghost predicate Inv(w: World) {
    && w.d.live == w.grants
    && (w.d.expire <==> w.watched)
    && (w.d.timer.Some? ==> w.d.timer.value + 1 == |w.d.timers|)
    && (w.d.timer.None? ==> w.d.timers == [])
    && w.held <= |w.d.timers|
    // watched with nothing held: the current timer runs, and nothing was held since it was armed
    && (w.d.expire && w.d.live == 0 ==>
          w.d.timer.Some? && w.held <= w.d.timer.value && w.d.timers[w.d.timer.value] in {Armed, Firing})
    // and no timer runs otherwise, nor an old one
    && (forall i :: 0 <= i < |w.d.timers| && w.d.timers[i] == Armed ==>
          w.d.timer == Some(i) && w.d.expire && w.d.live == 0)
    && (forall k :: 0 <= k < |w.expiries| ==> !w.expiries[k].heldSince)
    && |w.expiries| + (if w.d.expire then 1 else 0) <= w.watches
    && (w.d.closedFor <==> w.expiries != [])
    && w.left + Leaves(w.d) == w.counted
  }

  lemma GrantStep(w: World, e: Event)
    requires Inv(w) && Enabled(w, e) && (e.Holding? || e.Released? || e.CountPending?)
    ensures Inv(Apply(w, e))
  {
  }

  lemma WatchStep(w: World, e: Event)
    requires Inv(w) && Enabled(w, e) && (e.StartWatch? || e.EndWatch?)
    ensures Inv(Apply(w, e))
  {
  }

  lemma TimerStep(w: World, e: Event)
    requires Inv(w) && Enabled(w, e) && (e.Elapse? || e.RunCallback?)
    ensures Inv(Apply(w, e))
  {
  }

  lemma ApplyInv(w: World, e: Event)
    requires Inv(w) && Enabled(w, e)
    ensures Inv(Apply(w, e))
  {
    hide *;
    match e
    case CountPending => GrantStep(w, e);
    case Holding => GrantStep(w, e);
    case Released => GrantStep(w, e);
    case StartWatch => WatchStep(w, e);
    case EndWatch => WatchStep(w, e);
    case Elapse(_) => TimerStep(w, e);
    case RunCallback(_) => TimerStep(w, e);
  }

  lemma {:induction false} RunInv(w: World, es: seq<Event>, w': World)
    requires Inv(w) && Runs(w, es, w')
    ensures Inv(w')
    decreases |es|
  {
    if es != [] {
      ApplyInv(w, es[0]);
      RunInv(Apply(w, es[0]), es[1..], w');
    }
  }

  lemma StartInv()
    ensures Inv(START)
  {
  }

  lemma ReachedInv(es: seq<Event>, w: World)
    requires Runs(START, es, w)
    ensures Inv(w)
  {
    hide *;
    StartInv();
    RunInv(START, es, w);
  }

  /**
   * The session is closed at most once for each time it is watched, and only
   * from a timer since whose arming no grant was held, however long its callback
   * waited for the mutex.
   */
  lemma ExpiresOnlyUnheld(es: seq<Event>, w: World)
    requires Runs(START, es, w)
    ensures |w.expiries| <= w.watches
    ensures w.d.expire ==> |w.expiries| < w.watches
    ensures forall k :: 0 <= k < |w.expiries| ==> !w.expiries[k].heldSince
    ensures w.d.closedFor <==> w.expiries != []
  {
    ReachedInv(es, w);
    hide Runs;
  }

  /** While the session is watched and holds nothing, the timer started last runs; no other timer ever does. */
  lemma DeadlineAlwaysArmed(es: seq<Event>, w: World)
    requires Runs(START, es, w)
    ensures w.watched && w.grants == 0 ==> w.d.timers != [] && w.d.timers[|w.d.timers| - 1] in {Armed, Firing}
    ensures forall i :: 0 <= i < |w.d.timers| && w.d.timers[i] == Armed ==>
              i == |w.d.timers| - 1 && w.watched && w.grants == 0
    ensures w.d.expire == w.watched && w.d.live == w.grants
    ensures w.d.timer == if w.d.timers == [] then None else Some(|w.d.timers| - 1)
  {
    hide *;
    ReachedInv(es, w);
    ArmedFromInv(w);
  }

  lemma ArmedFromInv(w: World)
    requires Inv(w)
    ensures w.watched && w.grants == 0 ==> w.d.timers != [] && w.d.timers[|w.d.timers| - 1] in {Armed, Firing}
    ensures forall i :: 0 <= i < |w.d.timers| && w.d.timers[i] == Armed ==>
              i == |w.d.timers| - 1 && w.watched && w.grants == 0
    ensures w.d.expire == w.watched && w.d.live == w.grants
    ensures w.d.timer == if w.d.timers == [] then None else Some(|w.d.timers| - 1)
    ensures w.watched && w.grants == 0 ==> w.held < |w.d.timers|
  {
  }

  /** The callback of a timer that fired closes the session exactly if no timer was started since, no grant is held and the session is watched. */
  lemma ClosesExactlyWhen(es: seq<Event>, w: World, i: nat)
    requires Runs(START, es, w) && Enabled(w, RunCallback(i))
    ensures
      var w', due := Apply(w, RunCallback(i)), i + 1 == |w.d.timers| && w.grants == 0 && w.watched;
      && w'.expiries == w.expiries + (if due then [Expiry(i, false)] else [])
      && w'.d.closedFor == (w.d.closedFor || due)
      && w'.d.expire == (w.d.expire && !due)
  {
    ReachedInv(es, w);
    hide Runs, Inv;
    ArmedFromInv(w);
  }

  /** A watch takes effect at once, and ends only by being ended or by closing the session. */
  lemma WatchedUntilClosed(w: World, e: Event)
    requires Enabled(w, e)
    ensures e.StartWatch? ==> Apply(w, e).d.expire
    ensures e.EndWatch? ==> !Apply(w, e).d.expire
    ensures w.d.expire && !Apply(w, e).d.expire ==>
              e.EndWatch? || (e.RunCallback? && |Apply(w, e).expiries| == |w.expiries| + 1)
  {
  }

  /** A session leaves the pending count at most once each time it is counted, and has left it or is in it. */
  lemma PendingLeftOnce(es: seq<Event>, w: World)
    requires Runs(START, es, w)
    ensures w.left <= w.counted <= w.left + 1
    ensures w.d.pending <==> w.left < w.counted
  {
    ReachedInv(es, w);
    hide Runs;
  }
}
