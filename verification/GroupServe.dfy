/** Serving one group: frames are appended while a subscriber reads them by index. */
module GroupServe {
  datatype Pc = Reading | SawNoMore | Finished

  datatype World<F> = World(frames: seq<F>, complete: bool, written: seq<F>, pc: Pc)

  datatype Event<F> = Append(f: F) | Complete | ReadFrame | ReadComplete

  /** The producer appends to a group until it completes it. */
  predicate Enabled<F>(w: World<F>, e: Event<F>) {
    match e
    case Append(_) => !w.complete
    case Complete => true
    case ReadFrame => w.pc.Reading?
    case ReadComplete => w.pc.SawNoMore?
  }

  function Apply<F>(w: World<F>, e: Event<F>): World<F> {
    match e
    case Append(f) => w.(frames := w.frames + [f])
    case Complete => w.(complete := true)
    case ReadFrame =>
      if |w.written| < |w.frames| then w.(written := w.written + [w.frames[|w.written|]])
      else w.(pc := SawNoMore)
    // not complete: it waits for a notification and reads again
    case ReadComplete => w.(pc := if w.complete then Finished else Reading)
  }

  ghost predicate Runs<F>(w: World<F>, es: seq<Event<F>>, w': World<F>)
    decreases |es|
  {
    if es == [] then w' == w else Enabled(w, es[0]) && Runs(Apply(w, es[0]), es[1..], w')
  }

  function Init<F>(): World<F> { World([], false, [], Reading) }

  ghost predicate Inv<F>(w: World<F>) {
    && w.written <= w.frames
    && (w.pc.Finished? ==> w.complete)
  }

  lemma {:induction false} RunInv<F>(w: World<F>, es: seq<Event<F>>, w': World<F>)
    requires Inv(w) && Runs(w, es, w')
    ensures Inv(w')
    decreases |es|
  {
    if es != [] {
      RunInv(Apply(w, es[0]), es[1..], w');
    }
  }

  // ----- what of a group a subscriber misses -----

  /** The subscriber looks for a frame at some point. */
  predicate Looks<F>(es: seq<Event<F>>) { exists i :: 0 <= i < |es| && es[i].ReadFrame? }

  /** Event i appends a frame, and the subscriber does not look for one afterwards. */
  predicate TooLate<F>(es: seq<Event<F>>, i: nat)
    requires i < |es|
  {
    es[i].Append? && forall j :: i < j < |es| ==> !es[j].ReadFrame?
  }

  predicate AppendsTooLate<F>(es: seq<Event<F>>) { exists i: nat :: i < |es| && TooLate(es, i) }

  lemma LooksFront<F>(es: seq<Event<F>>)
    requires es != []
    ensures Looks(es) <==> es[0].ReadFrame? || Looks(es[1..])
  {
    assert forall i :: 0 < i < |es| ==> es[1..][i - 1] == es[i];
  }

  lemma TooLateFront<F>(es: seq<Event<F>>)
    requires es != []
    ensures AppendsTooLate(es) <==> (es[0].Append? && !Looks(es[1..])) || AppendsTooLate(es[1..])
  {
    assert forall j :: 0 < j < |es| ==> es[1..][j - 1] == es[j];
    if i: nat :| i < |es| && TooLate(es, i) {
      assert i > 0 ==> TooLate(es[1..], i - 1);
    }
    if i: nat :| i < |es[1..]| && TooLate(es[1..], i) {
      forall j | i + 1 < j < |es|
        ensures !es[j].ReadFrame?
      {
        assert es[j] == es[1..][j - 1];
      }
      assert TooLate(es, i + 1);
    }
    if es[0].Append? && !Looks(es[1..]) {
      assert TooLate(es, 0);
    }
  }

  /** A subscriber goes on reading until it looks and finds no frame. */
  lemma {:induction false} StillReading<F>(w: World<F>, es: seq<Event<F>>, w': World<F>)
    requires Runs(w, es, w') && w.pc.Reading? && !Looks(es)
    ensures w'.pc.Reading?
    decreases |es|
  {
    if es != [] {
      LooksFront(es);
      StillReading(Apply(w, es[0]), es[1..], w');
    }
  }

  lemma {:induction false} SentAll<F>(w: World<F>, es: seq<Event<F>>, w': World<F>)
    requires Inv(w) && Runs(w, es, w') && !w'.pc.Reading?
    ensures w'.written == w'.frames <==> !AppendsTooLate(es) && (Looks(es) || w.written == w.frames)
    decreases |es|
  {
    if es != [] {
      var w1 := Apply(w, es[0]);
      LooksFront(es);
      TooLateFront(es);
      if w1.pc.Reading? && !Looks(es[1..]) {
        StillReading(w1, es[1..], w');
        assert false;
      }
      SentAll(w1, es[1..], w');
      hide Looks, AppendsTooLate, Runs;
    }
  }

  /**
   * What a subscriber is sent of a group is at all times a prefix of it, in
   * order with no gap and no duplicate; and once done it was sent all of it
   * exactly if no frame was appended after it last looked for one.
   */
  lemma ServedIsPrefix<F>(es: seq<Event<F>>, w: World<F>)
    requires Runs(Init(), es, w)
    ensures w.written <= w.frames
    ensures w.pc.Finished? ==> w.complete && (w.written == w.frames <==> !AppendsTooLate(es))
  {
    RunInv(Init(), es, w);
    if w.pc.Finished? {
      SentAll(Init(), es, w);
    }
  }

  lemma {:induction false} NoneAppended<F>(w: World<F>, es: seq<Event<F>>, w': World<F>)
    requires Runs(w, es, w') && w.complete
    ensures w'.complete && forall i :: 0 <= i < |es| ==> !es[i].Append?
    decreases |es|
  {
    if es != [] {
      NoneAppended(Apply(w, es[0]), es[1..], w');
      assert forall i :: 0 < i < |es| ==> es[1..][i - 1] == es[i];
    }
  }

  /** So one that looks for a frame once more after the group is complete, and is then done, was sent all of it. */
  lemma LookAfterCompletion<F>(es: seq<Event<F>>, w: World<F>, es': seq<Event<F>>, w': World<F>)
    requires Runs(Init(), es, w) && w.complete && Runs(w, es', w') && Looks(es') && w'.pc.Finished?
    ensures w'.written == w'.frames == w.frames
  {
    RunInv(Init(), es, w);
    NoneAppended(w, es', w');
    SentAll(w, es', w');
    SameFrames(w, es', w');
  }

  lemma {:induction false} SameFrames<F>(w: World<F>, es: seq<Event<F>>, w': World<F>)
    requires Runs(w, es, w') && forall i :: 0 <= i < |es| ==> !es[i].Append?
    ensures w'.frames == w.frames
    decreases |es|
  {
    if es != [] {
      SameFrames(Apply(w, es[0]), es[1..], w');
    }
  }

  /** Wherever a subscriber has found no frame left of a group still open, a frame appended and completed before it looks for completion is never sent to it. */
  lemma LastFrameCanBeMissed<F>(w: World<F>, f: F)
    requires Inv(w) && w.pc.SawNoMore? && !w.complete
    ensures Runs(w, [Append(f), Complete, ReadComplete], World(w.frames + [f], true, w.written, Finished))
    ensures w.written < w.frames + [f]
  {
    var w1 := Apply(w, Append(f));
    var w2 := Apply(w1, Complete);
    var w3 := Apply(w2, ReadComplete);
    assert Runs(w2, [ReadComplete], w3);
    assert [Complete, ReadComplete][1..] == [Event<F>.ReadComplete];
    assert Runs(w1, [Complete, ReadComplete], w3);
    assert [Append(f), Complete, ReadComplete][1..] == [Complete, ReadComplete];
  }
}
