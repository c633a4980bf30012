/** The limit on sessions admitted without a credential that were granted nothing so far, kept by a counter all admissions share. */
module PendingCount {
  /** `counter` is the shared atomic; `refused` are sessions turned away that have not yet taken themselves out again. */
  datatype World = World(max: nat, counter: int, pending: set<nat>, refused: set<nat>)

  datatype Event = Reserve(id: nat) | Withdraw(id: nat) | Leave(id: nat)

  predicate Enabled(w: World, e: Event) {
    match e
    case Reserve(id) => id !in w.pending && id !in w.refused
    case Withdraw(id) => id in w.refused
    case Leave(id) => id in w.pending
  }

  /** The add and the comparison of its result are one atomic step; taking it back is another. */
  function Apply(w: World, e: Event): World {
    match e
    case Reserve(id) =>
      if w.counter + 1 > w.max then w.(counter := w.counter + 1, refused := w.refused + {id})
      else w.(counter := w.counter + 1, pending := w.pending + {id})
    case Withdraw(id) => w.(counter := w.counter - 1, refused := w.refused - {id})
    case Leave(id) => w.(counter := w.counter - 1, pending := w.pending - {id})
  }

  ghost predicate Runs(w: World, es: seq<Event>, w': World)
    decreases |es|
  {
    if es == [] then w' == w else Enabled(w, es[0]) && Runs(Apply(w, es[0]), es[1..], w')
  }

  ghost predicate Inv(w: World) {
    && w.counter == |w.pending| + |w.refused|
    && |w.pending| <= w.max
  }

  lemma {:induction false} RunInv(w: World, es: seq<Event>, w': World)
    requires Inv(w) && Runs(w, es, w')
    ensures Inv(w') && w'.max == w.max
    decreases |es|
  {
    if es != [] {
      RunInv(Apply(w, es[0]), es[1..], w');
    }
  }

  /**
   * However reservations interleave, no more sessions than the limit are
   * admitted and pending, the counter is exact once no refusal is half done, and
   * a session is admitted exactly when those pending and those half refused
   * together are below the limit.
   */
  lemma NeverOverLimit(max: nat, es: seq<Event>, w: World, id: nat)
    requires Runs(World(max, 0, {}, {}), es, w) && id !in w.pending && id !in w.refused
    ensures |w.pending| <= max
    ensures w.refused == {} ==> w.counter == |w.pending|
    ensures id in Apply(w, Reserve(id)).pending <==> |w.pending| + |w.refused| < max
  {
    RunInv(World(max, 0, {}, {}), es, w);
  }

  /** So a refusal half done may turn away one more session, though there is room for it. */
  lemma RefusedWithRoom()
    ensures
      var w := World(1, 0, {}, {});
      var es := [Reserve(1), Reserve(2), Leave(1), Reserve(3)];
      && Runs(w, es, World(1, 2, {}, {2, 3}))
  {
  }
}
