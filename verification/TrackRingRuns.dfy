/** The same buffer with the producer's and every subscriber's atomic reads and writes interleaved. */
module TrackRingRuns {
  import opened TrackRing

  /** Where a subscriber is within next. */
  datatype Pc =
    | Start
    | HeadRead(latest: nat)
    | Asking(q: nat)

  /** A skip: the group the subscriber would have been served next, and the head it was judged by. */
  datatype Skip = Skip(missed: nat, head: nat)

  /** joined is the last group before those a new subscriber asks for. */
  datatype Sub = Sub(pc: Pc, joined: nat, last: nat, served: seq<nat>, skips: seq<Skip>)

  datatype World = World(slots: seq<nat>, pos: nat, stored: nat, subs: seq<Sub>)

  datatype Event = Advance | Store | Join | Step(i: nat)

  function Init(size: nat): World { World(seq(size, _ => 0), 0, 0, []) }

  predicate Enabled(w: World, e: Event) {
    match e
    case Advance => w.stored == w.pos
    case Store => w.stored < w.pos && |w.slots| > 0
    case Join => true
    case Step(i) => i < |w.subs| && |w.slots| > 0
  }

  /** The next atomic read of a subscriber. */
  function StepSub(w: World, s: Sub): Sub {
    if |w.slots| == 0 then s
    else match s.pc
    case Start => if s.last >= w.pos then s else s.(pc := HeadRead(w.pos))
    case HeadRead(latest) =>
      if s.last + 1 < Earliest(w.pos, |w.slots|) && latest > 0 then
        s.(pc := Asking(latest), last := latest - 1, skips := s.skips + [Skip(s.last + 1, w.pos)])
      else s.(pc := Asking(s.last + 1))
    case Asking(q) =>
      if w.slots[q % |w.slots|] != 0 && w.slots[q % |w.slots|] == q then
        s.(pc := Start, last := q, served := s.served + [q])
      else s.(pc := Start)
  }

  function NewSub(joined: nat): Sub { Sub(Start, joined, joined, [], []) }

  function Apply(w: World, e: Event): World
    requires Enabled(w, e)
  {
    match e
    case Advance => w.(pos := w.pos + 1)
    case Store => w.(slots := w.slots[w.pos % |w.slots| := w.pos], stored := w.pos)
    case Join => w.(subs := w.subs + [NewSub(if w.pos > 0 then w.pos - 1 else 0)])
    case Step(i) => w.(subs := w.subs[i := StepSub(w, w.subs[i])])
  }

  ghost predicate Runs(w: World, es: seq<Event>, w': World)
    decreases |es|
  {
    if es == [] then w' == w else Enabled(w, es[0]) && Runs(Apply(w, es[0]), es[1..], w')
  }

  /** What a subscriber had before it was served its j-th group. */
  function Before(s: Sub, j: nat): nat
    requires j <= |s.served|
  {
    if j == 0 then s.joined else s.served[j - 1]
  }

  predicate Skipped(s: Sub, q: nat) { exists k :: 0 <= k < |s.skips| && s.skips[k].missed == q }

  /** The j-th group served is the next one, unless that was skipped. */
  predicate NextOrSkip(s: Sub, j: nat)
    requires j < |s.served|
  {
    s.served[j] == Before(s, j) + 1 || Skipped(s, Before(s, j) + 1)
  }

  /** So it is with every group served, and with where the subscriber stands now. */
  ghost predicate NoSilentGap(s: Sub) {
    && (forall j: nat :: j < |s.served| ==> NextOrSkip(s, j))
    && (s.last == Before(s, |s.served|) || Skipped(s, Before(s, |s.served|) + 1))
  }

  ghost predicate SubOk(w: World, s: Sub) {
    && NoSilentGap(s)
    && s.last <= w.pos
    && (forall i, j :: 0 <= i < j < |s.served| ==> s.served[i] < s.served[j])
    && (forall i :: 0 <= i < |s.served| ==> 1 <= s.served[i] <= s.last && s.served[i] <= w.stored)
    && (s.pc.HeadRead? ==> s.last < s.pc.latest <= w.pos)
    && (s.pc.Asking? ==> s.pc.q == s.last + 1 && s.pc.q <= w.pos)
    // a skipped group's slot has been claimed by a group a ring newer
    && (forall k :: 0 <= k < |s.skips| ==> s.skips[k].missed + |w.slots| <= s.skips[k].head <= w.pos)
  }

  ghost predicate Inv(w: World) {
    && w.stored <= w.pos <= w.stored + 1
    && RingOk(w.slots, w.stored)
    && forall i :: 0 <= i < |w.subs| ==> SubOk(w, w.subs[i])
  }

  /** With more groups served and more skips, what is said of those before stays. */
  lemma GapFrame(s: Sub, s': Sub)
    requires s'.joined == s.joined && s.served <= s'.served && s.skips <= s'.skips && NoSilentGap(s)
    ensures forall j: nat :: j < |s.served| ==> NextOrSkip(s', j)
    ensures s.last == Before(s', |s.served|) || Skipped(s', Before(s', |s.served|) + 1)
  {
    forall q | Skipped(s, q)
      ensures Skipped(s', q)
    {
      var k :| 0 <= k < |s.skips| && s.skips[k].missed == q;
      assert s'.skips[k].missed == q;
    }
    forall j: nat | j < |s.served|
      ensures NextOrSkip(s', j)
    {
      assert NextOrSkip(s, j);
    }
  }

  lemma GapServed(s: Sub, s': Sub)
    requires NoSilentGap(s) && s'.joined == s.joined && s'.skips == s.skips
    requires s'.served == s.served + [s.last + 1] && s'.last == s.last + 1
    ensures NoSilentGap(s')
  {
    GapFrame(s, s');
    assert NextOrSkip(s', |s.served|);
  }

  lemma GapSkipped(s: Sub, s': Sub, head: nat)
    requires NoSilentGap(s) && s'.joined == s.joined && s'.served == s.served
    requires s'.skips == s.skips + [Skip(s.last + 1, head)]
    ensures NoSilentGap(s')
  {
    GapFrame(s, s');
    assert s'.skips[|s.skips|].missed == s.last + 1;
  }

  lemma GapStep(w: World, s: Sub)
    requires NoSilentGap(s) && (s.pc.Asking? ==> s.pc.q == s.last + 1)
    ensures NoSilentGap(StepSub(w, s))
  {
    var s' := StepSub(w, s);
    if |s'.skips| > |s.skips| {
      GapSkipped(s, s', w.pos);
    } else if |s'.served| > |s.served| {
      GapServed(s, s');
    } else {
      GapFrame(s, s');
    }
  }

  lemma SubStep(w: World, s: Sub)
    requires Inv(w) && SubOk(w, s)
    ensures SubOk(w, StepSub(w, s))
  {
    GapStep(w, s);
    hide NoSilentGap;
  }

  lemma ApplyInv(w: World, e: Event)
    requires Inv(w) && Enabled(w, e)
    ensures Inv(Apply(w, e))
  {
    match e
    case Advance =>
    case Store => StoreKeeps(w.slots, w.stored);
    case Join =>
    case Step(i) => SubStep(w, w.subs[i]);
  }

  lemma {:induction false} RunInv(w: World, es: seq<Event>, w': World)
    requires Inv(w) && Runs(w, es, w')
    ensures Inv(w')
    decreases |es|
  {
    if es != [] {
      ApplyInv(w, es[0]);
      RunInv(Apply(w, es[0]), es[1..], w');
    }
  }

  /**
   * For every interleaving: a subscriber is served strictly increasing
   * sequences of groups that were stored, from where it joined on without a gap,
   * except where the next group was skipped; and only a group whose slot the
   * producer had claimed for a group at least a ring newer ever is.
   */
  lemma ServedInOrder(size: nat, es: seq<Event>, w: World, i: nat)
    requires size > 0 && Runs(Init(size), es, w) && i < |w.subs|
    ensures forall j, k :: 0 <= j < k < |w.subs[i].served| ==> w.subs[i].served[j] < w.subs[i].served[k]
    ensures forall j :: 0 <= j < |w.subs[i].served| ==> 1 <= w.subs[i].served[j] <= w.stored
    ensures forall k :: 0 <= k < |w.subs[i].skips| ==>
              w.subs[i].skips[k].missed + |w.slots| <= w.subs[i].skips[k].head <= w.pos
    ensures forall j: nat :: j < |w.subs[i].served| ==> NextOrSkip(w.subs[i], j)
    ensures forall q: nat :: Skipped(w.subs[i], q) ==> q + |w.slots| <= w.pos
  {
    assert Inv(Init(size));
    RunInv(Init(size), es, w);
    hide Runs, NextOrSkip;
  }

  /**
   * A subscriber about to read its slot is served exactly if the group is stored
   * and less than a ring old: so it goes without only when the producer is
   * between advance and store of that very group, or has lapped it since.
   */
  lemma ServedExactlyWhenHeld(size: nat, es: seq<Event>, w: World, i: nat)
    requires size > 0 && Runs(Init(size), es, w) && i < |w.subs| && w.subs[i].pc.Asking?
    ensures
      var s, q := w.subs[i], w.subs[i].pc.q;
      && (StepSub(w, s).served == s.served + [q] <==> InRing(q, w.stored, |w.slots|))
      && (!InRing(q, w.stored, |w.slots|) ==> (w.stored < w.pos && q == w.pos) || q + |w.slots| <= w.stored)
  {
    assert Inv(Init(size));
    RunInv(Init(size), es, w);
    hide Runs;
    var s, q := w.subs[i], w.subs[i].pc.q;
    SlotHolds(w.slots, w.stored, q);
    assert |s.served + [q]| == |s.served| + 1;
  }

  /** Behind, with no open half done and no producer step meanwhile, a subscriber gets the next group, or the newest if that has left the ring. */
  lemma BehindGetsAGroup(size: nat, es: seq<Event>, w: World, i: nat)
    requires size > 0 && Runs(Init(size), es, w) && i < |w.subs|
    requires w.stored == w.pos && w.subs[i].pc.Start? && w.subs[i].last < w.pos
    ensures
      var s := w.subs[i];
      var s' := StepSub(w, StepSub(w, StepSub(w, s)));
      && s'.served == s.served + [s'.last]
      && s'.last == (if InRing(s.last + 1, w.pos, |w.slots|) then s.last + 1 else w.pos)
      && s'.skips == s.skips + (if InRing(s.last + 1, w.pos, |w.slots|) then [] else [Skip(s.last + 1, w.pos)])
  {
    assert Inv(Init(size));
    RunInv(Init(size), es, w);
    hide Runs;
    AsksForTheNext(w, w.subs[i]);
    SlotHolds(w.slots, w.stored, w.subs[i].last + 1);
    SlotHolds(w.slots, w.stored, w.pos);
    hide Inv;
  }

  /** A new subscriber starts with the newest group: with no open half done that is the first it is served. */
  lemma NewcomerGetsTheNewest(size: nat, es: seq<Event>, w: World)
    requires size > 0 && Runs(Init(size), es, w) && w.stored == w.pos > 0
    ensures
      var s := Apply(w, Join).subs[|w.subs|];
      var s' := StepSub(w, StepSub(w, StepSub(w, s)));
      s.served == [] && s'.served == [w.pos] && s'.skips == []
  {
    assert Inv(Init(size));
    RunInv(Init(size), es, w);
    hide Runs;
    var s := Apply(w, Join).subs[|w.subs|];
    AsksForTheNext(w, s);
    SlotHolds(w.slots, w.stored, w.pos);
  }

  lemma AsksForTheNext(w: World, s: Sub)
    requires |w.slots| > 0 && s.pc.Start? && s.last < w.pos
    ensures
      var held := InRing(s.last + 1, w.pos, |w.slots|);
      var q := if held then s.last + 1 else w.pos;
      StepSub(w, StepSub(w, s)) ==
      s.(pc := Asking(q), last := q - 1, skips := s.skips + if held then [] else [Skip(s.last + 1, w.pos)])
  {
    assert s.skips + [] == s.skips;
  }
}
