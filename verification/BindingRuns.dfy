/** Every run of an anonymous session's tickets. */
module BindingRuns {
  import opened HeldGrants

  datatype Granted = Granted(kid: string, publishes: bool)

  datatype World = World(b: Binding, flight: multiset<string>, granted: seq<Granted>, calls: seq<Call>)

  /** A ticket that verified begins; one in flight fails, or is granted. Key ids are thumbprints, never empty. */
  datatype Event = Begin(kid: string) | Fail(kid: string) | Succeed(kid: string, publishes: bool)

  const START := World(Binding("", false, false, 0), multiset{}, [], [])

  predicate Enabled(w: World, e: Event) {
    match e
    case Begin(kid) => kid != ""
    case Fail(kid) => kid in w.flight
    case Succeed(kid, _) => kid in w.flight
  }

  function Apply(w: World, e: Event): World {
    match e
    case Begin(kid) =>
      var (b, ok) := BeginKey(w.b, kid);
      w.(b := b, flight := if ok then w.flight + multiset{kid} else w.flight)
    case Fail(kid) =>
      w.(b := Refuse(w.b), flight := w.flight - multiset{kid})
    case Succeed(kid, publishes) =>
      var (b, calls) := Grant(w.b, publishes);
      World(b, w.flight - multiset{kid}, w.granted + [Granted(kid, publishes)], w.calls + calls)
  }

  ghost predicate Runs(w: World, es: seq<Event>, w': World)
    decreases |es|
  {
    if es == [] then w' == w else Enabled(w, es[0]) && Runs(Apply(w, es[0]), es[1..], w')
  }

  predicate SomePublishes(granted: seq<Granted>) {
    exists i :: 0 <= i < |granted| && granted[i].publishes
  }

  /** The calls the grants so far should have caused: one open, first of all, then at most one change to publisher. */
  function Expected(granted: seq<Granted>): seq<Call> {
    if granted == [] then []
    else [Open(granted[0].publishes)] + (if !granted[0].publishes && SomePublishes(granted) then [Publishing] else [])
  }

  ghost predicate Inv(w: World) {
    && w.b.inFlight == |w.flight|
    && KeyOk(w)
    && CallsOk(w)
  }

  ghost predicate KeyOk(w: World) {
    && (forall kid :: kid in w.flight ==> kid == w.b.key)
    && (forall i :: 0 <= i < |w.granted| ==> w.granted[i].kid == w.b.key)
    && (w.b.key == "" <==> w.flight == multiset{} && w.granted == [])
    && (w.b.bound <==> w.granted != [])
  }

  ghost predicate CallsOk(w: World) {
    && (w.b.bound <==> w.granted != [])
    && (w.b.publishes <==> SomePublishes(w.granted))
    && w.calls == Expected(w.granted)
  }

  lemma ApplyInv(w: World, e: Event)
    requires Inv(w) && Enabled(w, e)
    ensures Inv(Apply(w, e))
  {
    KeyStep(w, e);
    CallsStep(w, e);
    hide KeyOk, CallsOk;
  }

  lemma KeyStep(w: World, e: Event)
    requires w.b.inFlight == |w.flight| && KeyOk(w) && Enabled(w, e)
    ensures KeyOk(Apply(w, e))
  {
    var w' := Apply(w, e);
    if !e.Begin? {
      assert w.flight == w'.flight + multiset{e.kid};
    }
  }

  lemma CallsStep(w: World, e: Event)
    requires CallsOk(w) && Enabled(w, e)
    ensures CallsOk(Apply(w, e))
  {
    var w' := Apply(w, e);
    match e
    case Begin(kid) =>
    case Fail(kid) =>
    case Succeed(kid, publishes) =>
      assert w'.granted == w.granted + [Granted(kid, publishes)];
      assert SomePublishes(w'.granted) <==> SomePublishes(w.granted) || publishes by {
        if publishes { assert w'.granted[|w.granted|].publishes; }
        if i :| 0 <= i < |w.granted| && w.granted[i].publishes { assert w'.granted[i].publishes; }
      }
  }

  lemma {:induction false} RunInv(w: World, es: seq<Event>, w': World)
    requires Inv(w) && Runs(w, es, w')
    ensures Inv(w')
    decreases |es|
  {
    if es != [] {
      ApplyInv(w, es[0]);
      RunInv(Apply(w, es[0]), es[1..], w');
    }
  }

  /**
   * Every ticket ever granted on a session has one key, the one in flight too;
   * the session is bound exactly while one is in flight or one was ever granted.
   */
  lemma OneKey(es: seq<Event>, w: World)
    requires Runs(START, es, w)
    ensures forall i, j :: 0 <= i < j < |w.granted| ==> w.granted[i].kid == w.granted[j].kid
    ensures forall i, kid :: 0 <= i < |w.granted| && kid in w.flight ==> w.granted[i].kid == kid == w.b.key
    ensures w.b.key == "" <==> w.flight == multiset{} && w.granted == []
    ensures forall kid :: kid != "" ==> (BeginKey(w.b, kid).1 <==> w.b.key == "" || w.b.key == kid)
  {
    hide Runs, Apply, Enabled;
    RunInv(START, es, w);
  }

  /** The usage is opened exactly once and before any change to publisher, and the session is a publisher exactly when some granted ticket publishes. */
  lemma OpenedOnceAndFirst(es: seq<Event>, w: World)
    requires Runs(START, es, w)
    ensures w.calls == [] <==> w.granted == []
    ensures forall i :: 0 <= i < |w.calls| ==> (w.calls[i].Open? <==> i == 0)
    ensures |w.calls| <= 2
    ensures w.b.publishes <==> exists i :: 0 <= i < |w.granted| && w.granted[i].publishes
    ensures w.b.publishes <==> Open(true) in w.calls || Publishing in w.calls
  {
    hide Runs, Apply, Enabled;
    RunInv(START, es, w);
    if w.granted != [] {
      assert w.calls[0] == Open(w.granted[0].publishes);
      if w.granted[0].publishes {
        assert SomePublishes(w.granted);
      }
      if |w.calls| == 2 {
        assert w.calls[1] == Publishing;
      }
    }
  }
}
