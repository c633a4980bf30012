/**
 * The gate that lets one announcement handler at a time feed a broadcast
 * (broadcastGate, internal/hls/feed.go): any number of handlers, any number of broadcasts.
 */
module Gate {
  datatype Pc = Out | Waiting(c: nat) | Holding(c: nat)

  datatype Handler = Handler(name: string, pc: Pc)

  /** held maps a broadcast to the channel its holder closes on release; owner says, for each channel made so far, which handler made it. */
  datatype World = World(held: map<string, nat>, owner: seq<nat>, closed: set<nat>, hs: seq<Handler>)

  /** Try is one turn of the acquire loop under the mutex; Wake receives on a closed channel; GiveUp is the context ending. */
  datatype Event = Arrive(name: string) | Try(i: nat) | Wake(i: nat) | GiveUp(i: nat) | Release(i: nat)

  predicate Enabled(w: World, e: Event) {
    match e
    case Arrive(_) => true
    case Try(i) => i < |w.hs| && w.hs[i].pc.Out?
    case Wake(i) => i < |w.hs| && w.hs[i].pc.Waiting? && w.hs[i].pc.c in w.closed
    case GiveUp(i) => i < |w.hs| && w.hs[i].pc.Waiting?
    case Release(i) => i < |w.hs| && w.hs[i].pc.Holding?
  }

  function At(w: World, i: nat, pc: Pc): seq<Handler>
    requires i < |w.hs|
  {
    w.hs[i := w.hs[i].(pc := pc)]
  }

  function Apply(w: World, e: Event): World
    requires Enabled(w, e)
  {
    match e
    case Arrive(name) => w.(hs := w.hs + [Handler(name, Out)])
    case Try(i) =>
      var name := w.hs[i].name;
      if name in w.held then w.(hs := At(w, i, Waiting(w.held[name])))
      else w.(held := w.held[name := |w.owner|], owner := w.owner + [i], hs := At(w, i, Holding(|w.owner|)))
    case Wake(i) => w.(hs := At(w, i, Out))
    case GiveUp(i) => w.(hs := At(w, i, Out))
    case Release(i) =>
      w.(held := w.held - {w.hs[i].name}, closed := w.closed + {w.hs[i].pc.c}, hs := At(w, i, Out))
  }

  ghost predicate Runs(w: World, es: seq<Event>, w': World)
    decreases |es|
  {
    if es == [] then w' == w else Enabled(w, es[0]) && Runs(Apply(w, es[0]), es[1..], w')
  }

  function Start(): World { World(map[], [], {}, []) }

  /** A holder's channel is the one held for its broadcast, its own and still open. */
  ghost predicate HoldersOk(w: World) {
    forall i :: 0 <= i < |w.hs| && w.hs[i].pc.Holding? ==>
      && w.hs[i].name in w.held && w.held[w.hs[i].name] == w.hs[i].pc.c
      && w.hs[i].pc.c < |w.owner| && w.owner[w.hs[i].pc.c] == i && w.hs[i].pc.c !in w.closed
  }

  /** Every broadcast held has its holder. */
  ghost predicate HeldOk(w: World) {
    forall name :: name in w.held ==>
      && w.held[name] < |w.owner| && w.owner[w.held[name]] < |w.hs|
      && w.hs[w.owner[w.held[name]]] == Handler(name, Holding(w.held[name]))
  }

  ghost predicate WaitersOk(w: World) {
    && (forall c: nat :: c in w.closed ==> c < |w.owner|)
    && (forall i :: 0 <= i < |w.hs| && w.hs[i].pc.Waiting? ==>
          w.hs[i].pc.c in w.closed || (w.hs[i].name in w.held && w.held[w.hs[i].name] == w.hs[i].pc.c))
  }

  ghost predicate Inv(w: World) { HoldersOk(w) && HeldOk(w) && WaitersOk(w) }

  lemma HoldersStep(w: World, e: Event)
    requires HoldersOk(w) && WaitersOk(w) && HeldOk(w) && Enabled(w, e)
    ensures HoldersOk(Apply(w, e))
  {
  }

  lemma HeldStep(w: World, e: Event)
    requires HeldOk(w) && HoldersOk(w) && Enabled(w, e)
    ensures HeldOk(Apply(w, e))
  {
  }

  lemma WaitersStep(w: World, e: Event)
    requires WaitersOk(w) && HoldersOk(w) && Enabled(w, e)
    ensures WaitersOk(Apply(w, e))
  {
  }

  lemma ApplyInv(w: World, e: Event)
    requires Inv(w) && Enabled(w, e)
    ensures Inv(Apply(w, e))
  {
    hide HoldersOk, HeldOk, WaitersOk, Apply, Enabled;
    HoldersStep(w, e);
    HeldStep(w, e);
    WaitersStep(w, e);
  }

  lemma {:induction false} RunInv(w: World, es: seq<Event>, w': World)
    requires Inv(w) && Runs(w, es, w')
    ensures Inv(w')
    decreases |es|
  {
    hide Inv;
    if es != [] {
      ApplyInv(w, es[0]);
      RunInv(Apply(w, es[0]), es[1..], w');
    }
  }

  /** In every run at most one handler holds a broadcast, and one that waits for it waits on a holder, or on a channel already closed. */
  lemma OneHolder(es: seq<Event>, w: World, i: nat, j: nat)
    requires Runs(Start(), es, w) && i < |w.hs| && j < |w.hs|
    ensures i != j && w.hs[i].pc.Holding? && w.hs[j].pc.Holding? ==> w.hs[i].name != w.hs[j].name
    ensures w.hs[i].pc.Waiting? && !Enabled(w, Wake(i)) ==>
              exists k: nat :: k < |w.hs| && w.hs[k] == Handler(w.hs[i].name, Holding(w.hs[i].pc.c))
  {
    RunInv(Start(), es, w);
    hide Runs;
    if w.hs[i].pc.Waiting? && !Enabled(w, Wake(i)) {
      assert w.hs[w.owner[w.held[w.hs[i].name]]] == Handler(w.hs[i].name, Holding(w.hs[i].pc.c));
    }
  }

  /** A handler that tries gets the broadcast exactly if no handler holds it. */
  lemma AcquiredExactlyWhenFree(es: seq<Event>, w: World, i: nat)
    requires Runs(Start(), es, w) && Enabled(w, Try(i))
    ensures
      var w' := Apply(w, Try(i));
      && (w'.hs[i].pc.Holding? <==> forall k :: 0 <= k < |w.hs| && w.hs[k].pc.Holding? ==> w.hs[k].name != w.hs[i].name)
      && (!w'.hs[i].pc.Holding? ==> w'.hs[i].pc.Waiting?)
  {
    RunInv(Start(), es, w);
    hide Runs, WaitersOk;
  }

  /** A release wakes every handler that waits for the broadcast, and frees it. */
  lemma ReleaseWakesWaiters(es: seq<Event>, w: World, i: nat, j: nat)
    requires Runs(Start(), es, w) && Enabled(w, Release(i)) && j < |w.hs| && j != i
    requires w.hs[j].name == w.hs[i].name && w.hs[j].pc.Waiting?
    ensures
      var w' := Apply(w, Release(i));
      Enabled(w', Wake(j)) && forall k :: 0 <= k < |w'.hs| && w'.hs[k].pc.Holding? ==> w'.hs[k].name != w.hs[i].name
  {
    RunInv(Start(), es, w);
    OneHolder(es, w, i, j);
    forall k | 0 <= k < |w.hs|
      ensures k != i && w.hs[k].pc.Holding? ==> w.hs[k].name != w.hs[i].name
    {
      OneHolder(es, w, i, k);
    }
    hide Runs, HeldOk, WaitersOk;
  }
}
