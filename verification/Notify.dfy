/**
 * The ingest broadcast notification (internal/ingest/broadcast_notify.go) with the
 * wait of an egress goroutine (internal/ingest/handler.go), as atomic steps of any
 * number of notifiers and listeners, interleaved in every way.
 *
 * A notifier makes data available, advances the sequence, and wakes listeners by
 * closing the channel it swaps out; with no listener it stops at the advance. A
 * listener registers, drains what there is, and parks on the channel it read
 * unless the sequence moved past the one it saw before draining.
 */
module Notify {
  /** Where a notifier is; v is the value its advance gave the sequence. */
  datatype NPc =
    | NIdle
    | NPushed                        // data stored, sequence not yet advanced
    | NBumped(v: nat)                // listeners not yet looked at
    | NSlow(v: nat)                  // saw a listener, waits for the mutex
    | NLocked(v: nat)
    | NChecked(v: nat)               // saw a listener again, under the mutex
    | NLoaded(v: nat, prev: nat)      // read the current channel
    | NSwapped(v: nat, prev: nat)     // installed a fresh one
    | NUnlock(v: nat)                // closed the old one, or found no listener

  /** Where a listener is; last is the sequence it compares with. */
  datatype LPc =
    | LOff
    | LLocked
    | LCounted
    | LSeq(s: nat)
    | LChan(s: nat)
    | LReady(last: nat)
    | LDrained(last: nat)
    | LWaitCh(last: nat, c: nat)
    | LWaitSeq(last: nat, c: nat, s: nat)
    | LParked(last: nat, c: nat)
    | LWoke
    | LWokeCh

  datatype Listener = Listener(pc: LPc, seen: nat)

  datatype Mutex = Free | ByNotifier(i: nat) | ByListener(i: nat)

  datatype World = World(
    num: nat,              // the sequence
    ch: nat,               // the current channel
    chans: nat,            // channels made so far are 0 .. chans - 1
    closed: set<nat>,
    listeners: int,
    mutex: Mutex,
    data: nat,             // pushes made available
    ns: seq<NPc>,
    ls: seq<Listener>,
    returned: set<nat>)    // values of the advances whose notify has returned

  datatype Event = NStep(i: nat) | LStep(i: nat) | LTimeout(i: nat) | LQuit(i: nat)

  function Start(notifiers: nat, listeners: nat): World {
    World(0, 0, 1, {}, 0, Free, 0, seq(notifiers, _ => NIdle), seq(listeners, _ => Listener(LOff, 0)), {})
  }

  predicate Enabled(w: World, e: Event) {
    match e
    case NStep(i) => i < |w.ns| && (w.ns[i].NSlow? ==> w.mutex.Free?)
    case LStep(i) =>
      && i < |w.ls|
      && (w.ls[i].pc.LOff? ==> w.mutex.Free?)
      && (w.ls[i].pc.LParked? ==> w.ls[i].pc.c in w.closed)
    case LTimeout(i) => i < |w.ls| && w.ls[i].pc.LParked?
    case LQuit(i) => i < |w.ls| && (w.ls[i].pc.LReady? || w.ls[i].pc.LDrained? || w.ls[i].pc.LParked?)
  }

  function NAt(w: World, i: nat, pc: NPc): World
    requires i < |w.ns|
  {
    w.(ns := w.ns[i := pc])
  }

  function LAt(w: World, i: nat, pc: LPc): World
    requires i < |w.ls|
  {
    w.(ls := w.ls[i := w.ls[i].(pc := pc)])
  }

  /** One atomic step of notifier i. */
  function AfterN(w: World, i: nat): World
    requires Enabled(w, NStep(i))
  {
    match w.ns[i]
    case NIdle => NAt(w, i, NPushed).(data := w.data + 1)
    case NPushed => NAt(w, i, NBumped(w.num + 1)).(num := w.num + 1)
    case NBumped(v) =>
      if w.listeners == 0 then NAt(w, i, NIdle).(returned := w.returned + {v})
      else NAt(w, i, NSlow(v))
    case NSlow(v) => NAt(w, i, NLocked(v)).(mutex := ByNotifier(i))
    case NLocked(v) => NAt(w, i, if w.listeners == 0 then NUnlock(v) else NChecked(v))
    case NChecked(v) => NAt(w, i, NLoaded(v, w.ch))
    case NLoaded(v, prev) => NAt(w, i, NSwapped(v, prev)).(ch := w.chans, chans := w.chans + 1)
    case NSwapped(v, prev) => NAt(w, i, NUnlock(v)).(closed := w.closed + {prev})
    case NUnlock(v) => NAt(w, i, NIdle).(mutex := Free, returned := w.returned + {v})
  }

  /** One atomic step of listener i: addListener, then rounds of drain, listen, park and listen again. */
  function AfterL(w: World, i: nat): World
    requires Enabled(w, LStep(i))
  {
    match w.ls[i].pc
    case LOff => LAt(w, i, LLocked).(mutex := ByListener(i))
    case LLocked => LAt(w, i, LCounted).(listeners := w.listeners + 1)
    case LCounted => LAt(w, i, LSeq(w.num))
    case LSeq(s) => LAt(w, i, LChan(s))
    case LChan(s) => LAt(w, i, LReady(s)).(mutex := Free)
    case LReady(last) => w.(ls := w.ls[i := Listener(LDrained(last), w.data)])
    case LDrained(last) => LAt(w, i, LWaitCh(last, w.ch))
    case LWaitCh(last, c) => LAt(w, i, LWaitSeq(last, c, w.num))
    case LWaitSeq(last, c, s) => LAt(w, i, if s > last then LWoke else LParked(last, c))
    case LParked(last, c) => LAt(w, i, LWoke)
    case LWoke => LAt(w, i, LWokeCh)
    case LWokeCh => LAt(w, i, LReady(w.num))
  }

  function Apply(w: World, e: Event): World
    requires Enabled(w, e)
  {
    match e
    case NStep(i) => AfterN(w, i)
    case LStep(i) => AfterL(w, i)
    case LTimeout(i) => LAt(w, i, LWoke)
    case LQuit(i) => LAt(w, i, LOff).(listeners := w.listeners - 1)
  }

  ghost predicate Runs(w: World, es: seq<Event>, w': World)
    decreases |es|
  {
    if es == [] then w' == w else Enabled(w, es[0]) && Runs(Apply(w, es[0]), es[1..], w')
  }

  // ----- what every step keeps -----

  predicate NHolds(pc: NPc) {
    pc.NLocked? || pc.NChecked? || pc.NLoaded? || pc.NSwapped? || pc.NUnlock?
  }

  predicate LHolds(pc: LPc) { pc.LLocked? || pc.LCounted? || pc.LSeq? || pc.LChan? }

  ghost predicate MutexOk(w: World) {
    && (forall i :: 0 <= i < |w.ns| ==> (NHolds(w.ns[i]) <==> w.mutex == ByNotifier(i)))
    && (forall i :: 0 <= i < |w.ls| ==> (LHolds(w.ls[i].pc) <==> w.mutex == ByListener(i)))
  }

  predicate IsRegistered(pc: LPc) { !pc.LOff? && !pc.LLocked? }

  function Registered(ls: seq<Listener>): set<nat> {
    set i: nat | i < |ls| && IsRegistered(ls[i].pc)
  }

  ghost predicate CountOk(w: World) { w.listeners == |Registered(w.ls)| }

  /** Every channel is the current one, closed, or about to be closed by the notifier that holds the mutex. */
  ghost predicate ChansOk(w: World) {
    && w.ch < w.chans && w.ch !in w.closed
    && (forall c: nat :: c in w.closed ==> c < w.chans)
    && (forall i :: 0 <= i < |w.ns| && w.ns[i].NLoaded? ==> w.ns[i].prev == w.ch)
    && (forall i :: 0 <= i < |w.ns| && w.ns[i].NSwapped? ==>
          w.ns[i].prev < w.chans && w.ns[i].prev != w.ch && w.ns[i].prev !in w.closed)
    && (forall c: nat :: c < w.chans && c != w.ch && c !in w.closed ==> HasCloser(w, c))
    && (forall i :: 0 <= i < |w.ls| && HasChan(w.ls[i].pc) ==> w.ls[i].pc.c < w.chans)
  }

  predicate HasChan(pc: LPc) { pc.LWaitCh? || pc.LWaitSeq? || pc.LParked? }

  predicate HasCloser(w: World, c: nat) {
    w.mutex.ByNotifier? && w.mutex.i < |w.ns| && w.ns[w.mutex.i].NSwapped? && w.ns[w.mutex.i].prev == c
  }

  predicate Advanced(pc: NPc) { !pc.NIdle? && !pc.NPushed? }

  /** Every advance so far has returned or is under way. */
  ghost predicate AdvancesOk(w: World) {
    && (forall v: nat :: v in w.returned ==> 0 < v <= w.num)
    && (forall i :: 0 <= i < |w.ns| && Advanced(w.ns[i]) ==> 0 < w.ns[i].v <= w.num)
    && (forall v: nat :: 0 < v <= w.num && v !in w.returned ==> exists i :: 0 <= i < |w.ns| && Advanced(w.ns[i]) && w.ns[i].v == v)
  }

  /** A listener that parks, or decided to, on channel c with sequence last. */
  predicate Waits(pc: LPc) { pc.LParked? || (pc.LWaitSeq? && pc.s <= pc.last) }

  /** Every advance past last has closed c, or will before its notify returns. */
  ghost predicate WaitOk(w: World, last: nat, c: nat) {
    && (forall v: nat :: v in w.returned && last < v ==> c in w.closed)
    && (forall i :: 0 <= i < |w.ns| && w.ns[i].NUnlock? && last < w.ns[i].v ==> c in w.closed)
    && (forall i :: 0 <= i < |w.ns| && w.ns[i].NSwapped? && last < w.ns[i].v ==> c in w.closed || c == w.ns[i].prev)
  }

  ghost predicate WaitsOk(w: World) {
    forall l :: 0 <= l < |w.ls| && Waits(w.ls[l].pc) ==> WaitOk(w, w.ls[l].pc.last, w.ls[l].pc.c)
  }

  function Pushing(ns: seq<NPc>): set<nat> {
    set i: nat | i < |ns| && ns[i].NPushed?
  }

  ghost predicate DataOk(w: World) { w.data == w.num + |Pushing(w.ns)| }

  /** What a listener has seen reaches at least the sequence it compares with. */
  ghost predicate SeenOk(w: World) {
    forall l :: 0 <= l < |w.ls| ==>
      && (w.ls[l].pc.LSeq? || w.ls[l].pc.LChan? ==> w.ls[l].pc.s <= w.num)
      && (w.ls[l].pc.LReady? ==> w.ls[l].pc.last <= w.num)
      && (w.ls[l].pc.LDrained? || w.ls[l].pc.LWaitCh? || w.ls[l].pc.LWaitSeq? || w.ls[l].pc.LParked? ==>
            w.ls[l].pc.last <= w.ls[l].seen)
  }

  ghost predicate Inv(w: World) {
    MutexOk(w) && CountOk(w) && ChansOk(w) && AdvancesOk(w) && WaitsOk(w) && DataOk(w) && SeenOk(w)
  }

  // ----- each step keeps them: notifiers -----

  lemma MutexStepN(w: World, i: nat)
    requires MutexOk(w) && Enabled(w, NStep(i))
    ensures MutexOk(AfterN(w, i))
  {
  }

  lemma ChansStepN(w: World, i: nat)
    requires MutexOk(w) && ChansOk(w) && Enabled(w, NStep(i))
    ensures ChansOk(AfterN(w, i))
  {
  }

  lemma AdvancesStepN(w: World, i: nat)
    requires AdvancesOk(w) && Enabled(w, NStep(i))
    ensures AdvancesOk(AfterN(w, i))
  {
    var w' := AfterN(w, i);
    forall v: nat | 0 < v <= w'.num && v !in w'.returned
      ensures exists k :: 0 <= k < |w'.ns| && Advanced(w'.ns[k]) && w'.ns[k].v == v
    {
      if v <= w.num {
        var k :| 0 <= k < |w.ns| && Advanced(w.ns[k]) && w.ns[k].v == v;
        assert Advanced(w'.ns[k]) && w'.ns[k].v == v;
      } else {
        assert Advanced(w'.ns[i]) && w'.ns[i].v == v;
      }
    }
  }

  lemma SomeoneRegistered(w: World, l: nat)
    requires CountOk(w) && l < |w.ls| && IsRegistered(w.ls[l].pc)
    ensures w.listeners > 0
  {
    assert l in Registered(w.ls);
  }

  /** The heart of it: a registered listener forces the slow path, whose close reaches the listener's channel. */
  lemma WaitStepN(w: World, i: nat, last: nat, c: nat)
    requires MutexOk(w) && ChansOk(w) && WaitOk(w, last, c) && Enabled(w, NStep(i))
    requires w.listeners > 0 && c < w.chans
    ensures WaitOk(AfterN(w, i), last, c)
  {
  }

  lemma WaitsStepN(w: World, i: nat)
    requires MutexOk(w) && CountOk(w) && ChansOk(w) && WaitsOk(w) && Enabled(w, NStep(i))
    ensures WaitsOk(AfterN(w, i))
  {
    assert AfterN(w, i).ls == w.ls;
    hide AfterN;
    forall l | 0 <= l < |w.ls| && Waits(w.ls[l].pc)
      ensures WaitOk(AfterN(w, i), w.ls[l].pc.last, w.ls[l].pc.c)
    {
      SomeoneRegistered(w, l);
      assert w.ls[l].pc.c < w.chans;
      WaitStepN(w, i, w.ls[l].pc.last, w.ls[l].pc.c);
    }
  }

  lemma DataStepN(w: World, i: nat)
    requires DataOk(w) && Enabled(w, NStep(i))
    ensures DataOk(AfterN(w, i))
  {
    var w' := AfterN(w, i);
    assert forall k :: 0 <= k < |w.ns| && k != i ==> w'.ns[k] == w.ns[k];
    assert w'.data - w'.num == w.data - w.num + (if w.ns[i].NIdle? then 1 else if w.ns[i].NPushed? then -1 else 0);
    assert w'.ns[i].NPushed? <==> w.ns[i].NIdle?;
    hide AfterN;
    PushingStep(w.ns, w'.ns, i);
  }

  /** Two sets that agree but for i. */
  lemma SizeStep(a: set<nat>, b: set<nat>, i: nat)
    requires forall k :: k != i ==> (k in a <==> k in b)
    ensures |b| == |a| + (if i in b then 1 else 0) - (if i in a then 1 else 0)
  {
    assert a - {i} == b - {i};
    assert i in a ==> a == (a - {i}) + {i};
    assert i in b ==> b == (b - {i}) + {i};
    assert i !in a ==> a == a - {i};
    assert i !in b ==> b == b - {i};
  }

  lemma PushingStep(ns: seq<NPc>, ns': seq<NPc>, i: nat)
    requires i < |ns| == |ns'| && forall k :: 0 <= k < |ns| && k != i ==> ns'[k] == ns[k]
    ensures |Pushing(ns')| == |Pushing(ns)| + (if ns'[i].NPushed? then 1 else 0) - (if ns[i].NPushed? then 1 else 0)
  {
    SizeStep(Pushing(ns), Pushing(ns'), i);
  }

  lemma StepN(w: World, i: nat)
    requires Inv(w) && Enabled(w, NStep(i))
    ensures Inv(AfterN(w, i))
  {
    MutexStepN(w, i);
    ChansStepN(w, i);
    AdvancesStepN(w, i);
    WaitsStepN(w, i);
    DataStepN(w, i);
    SeenFrame(w, AfterN(w, i));
    assert AfterN(w, i).listeners == w.listeners;
    hide *;
    CountFrame(w, AfterN(w, i));
  }

  lemma SeenFrame(w: World, w': World)
    requires SeenOk(w) && w'.ls == w.ls && w.num <= w'.num
    ensures SeenOk(w')
  {
  }

  lemma CountFrame(w: World, w': World)
    requires CountOk(w) && w'.ls == w.ls && w'.listeners == w.listeners
    ensures CountOk(w')
  {
  }

  // ----- each step keeps them: listeners -----

  lemma MutexStepL(w: World, e: Event)
    requires MutexOk(w) && Enabled(w, e) && !e.NStep?
    ensures MutexOk(Apply(w, e))
  {
  }

  /** A listener changes no channel, no notifier and no advance. */
  lemma UntouchedByL(w: World, e: Event)
    requires Enabled(w, e) && !e.NStep?
    ensures
      var w' := Apply(w, e);
      && w'.num == w.num && w'.ch == w.ch && w'.chans == w.chans && w'.closed == w.closed && w'.data == w.data
      && w'.ns == w.ns && w'.returned == w.returned && |w'.ls| == |w.ls|
      && (forall l :: 0 <= l < |w.ls| && l != e.i ==> w'.ls[l] == w.ls[l])
      && (w.mutex.ByNotifier? ==> LHolds(w.ls[e.i].pc) || w'.mutex == w.mutex)
  {
  }

  lemma CountStepL(w: World, e: Event)
    requires CountOk(w) && Enabled(w, e) && !e.NStep?
    ensures CountOk(Apply(w, e))
  {
    var w' := Apply(w, e);
    UntouchedByL(w, e);
    assert w'.listeners - w.listeners == (if e.LQuit? then -1 else if w.ls[e.i].pc.LLocked? then 1 else 0);
    assert IsRegistered(w'.ls[e.i].pc) <==> !e.LQuit? && (w.ls[e.i].pc.LLocked? || IsRegistered(w.ls[e.i].pc));
    assert e.LQuit? ==> IsRegistered(w.ls[e.i].pc);
    assert w.ls[e.i].pc.LLocked? ==> !e.LQuit?;
    hide Apply;
    RegisteredStep(w.ls, w'.ls, e.i);
  }

  lemma RegisteredStep(ls: seq<Listener>, ls': seq<Listener>, i: nat)
    requires i < |ls| == |ls'| && forall k :: 0 <= k < |ls| && k != i ==> ls'[k] == ls[k]
    ensures |Registered(ls')| ==
      |Registered(ls)| + (if IsRegistered(ls'[i].pc) then 1 else 0) - (if IsRegistered(ls[i].pc) then 1 else 0)
  {
    SizeStep(Registered(ls), Registered(ls'), i);
  }

  lemma ChansStepL(w: World, e: Event)
    requires ChansOk(w) && MutexOk(w) && Enabled(w, e) && !e.NStep?
    ensures ChansOk(Apply(w, e))
  {
    var w' := Apply(w, e);
    UntouchedByL(w, e);
    assert HasChan(w'.ls[e.i].pc) ==> w'.ls[e.i].pc.c == w.ch || (HasChan(w.ls[e.i].pc) && w'.ls[e.i].pc.c == w.ls[e.i].pc.c);
    hide Apply, Enabled;
    forall c: nat | c < w.chans && c != w.ch && c !in w.closed
      ensures HasCloser(w', c)
    {
      assert HasCloser(w, c);
    }
  }

  lemma WaitsStepL(w: World, e: Event)
    requires AdvancesOk(w) && WaitsOk(w) && Enabled(w, e) && !e.NStep?
    ensures WaitsOk(Apply(w, e))
  {
    var w' := Apply(w, e);
    UntouchedByL(w, e);
    var pc, pc' := w.ls[e.i].pc, w'.ls[e.i].pc;
    assert Waits(pc') ==> (Waits(pc) && pc'.last == pc.last && pc'.c == pc.c) || w.num <= pc'.last;
    hide Apply, Enabled;
    forall l | 0 <= l < |w'.ls| && Waits(w'.ls[l].pc)
      ensures WaitOk(w', w'.ls[l].pc.last, w'.ls[l].pc.c)
    {
      if l != e.i || Waits(pc) {
        assert WaitOk(w, w.ls[l].pc.last, w.ls[l].pc.c);
      }
    }
  }

  lemma SeenStepL(w: World, e: Event)
    requires SeenOk(w) && w.num <= w.data && Enabled(w, e) && !e.NStep?
    ensures SeenOk(Apply(w, e))
  {
  }

  lemma StepL(w: World, e: Event)
    requires Inv(w) && Enabled(w, e) && !e.NStep?
    ensures Inv(Apply(w, e))
  {
    assert w.num <= w.data;
    hide MutexOk, CountOk, ChansOk, AdvancesOk, WaitsOk, SeenOk, Apply;
    MutexStepL(w, e);
    CountStepL(w, e);
    ChansStepL(w, e);
    WaitsStepL(w, e);
    SeenStepL(w, e);
    UntouchedByL(w, e);
    AdvancesFrame(w, Apply(w, e));
  }

  lemma AdvancesFrame(w: World, w': World)
    requires AdvancesOk(w) && w'.ns == w.ns && w'.num == w.num && w'.returned == w.returned
    ensures AdvancesOk(w')
  {
  }

  lemma ApplyInv(w: World, e: Event)
    requires Inv(w) && Enabled(w, e)
    ensures Inv(Apply(w, e))
  {
    hide Inv, Enabled, AfterN, AfterL;
    if e.NStep? {
      StepN(w, e.i);
    } else {
      StepL(w, e);
    }
  }

  lemma StartInv(notifiers: nat, listeners: nat)
    ensures Inv(Start(notifiers, listeners))
  {
  }

  lemma {:induction false} RunInv(w: World, es: seq<Event>, w': World)
    requires Inv(w) && Runs(w, es, w')
    ensures Inv(w')
    decreases |es|
  {
    hide Inv;
    if es != [] {
      ApplyInv(w, es[0]);
      RunInv(Apply(w, es[0]), es[1..], w');
    }
  }

  // ----- the theorems -----

  /**
   * No lost wakeup: once a notify that advanced the sequence past what a parked
   * listener compared with has returned, the channel it is parked on is closed.
   */
  lemma NoLostWakeup(n: nat, m: nat, es: seq<Event>, w: World, l: nat, v: nat)
    requires Runs(Start(n, m), es, w)
    requires l < |w.ls| && w.ls[l].pc.LParked? && v in w.returned && w.ls[l].pc.last < v
    ensures w.ls[l].pc.c in w.closed
  {
    StartInv(n, m);
    RunInv(Start(n, m), es, w);
    hide Runs;
    assert Waits(w.ls[l].pc);
  }

  /**
   * The timer is not needed: with no push or notify under way, a listener parked
   * while there is data it has not seen is parked on a closed channel.
   */
  lemma TimerNotNeeded(n: nat, m: nat, es: seq<Event>, w: World, l: nat)
    requires Runs(Start(n, m), es, w)
    requires forall i :: 0 <= i < |w.ns| ==> w.ns[i].NIdle?
    requires l < |w.ls| && w.ls[l].pc.LParked? && w.ls[l].seen < w.data
    ensures w.ls[l].pc.c in w.closed && Enabled(w, LStep(l))
  {
    StartInv(n, m);
    RunInv(Start(n, m), es, w);
    hide Runs;
    assert Pushing(w.ns) == {};
    assert w.num in w.returned;
    assert Waits(w.ls[l].pc);
  }

  /** No channel is closed twice, and every channel swapped out is closed once the notifier that did it leaves the mutex. */
  lemma EachChannelClosedOnce(n: nat, m: nat, es: seq<Event>, w: World)
    requires Runs(Start(n, m), es, w)
    ensures forall i :: 0 <= i < |w.ns| && w.ns[i].NSwapped? ==> w.ns[i].prev !in w.closed
    ensures w.ch !in w.closed
    ensures !w.mutex.ByNotifier? ==> forall c: nat :: c < w.chans && c != w.ch ==> c in w.closed
  {
    StartInv(n, m);
    RunInv(Start(n, m), es, w);
    hide Runs;
  }

  /** The listener count is exact, so the fast path is taken only when nobody is registered. */
  lemma FastPathOnlyUnheard(n: nat, m: nat, es: seq<Event>, w: World)
    requires Runs(Start(n, m), es, w)
    ensures w.listeners == 0 <==> forall l :: 0 <= l < |w.ls| ==> !IsRegistered(w.ls[l].pc)
  {
    StartInv(n, m);
    RunInv(Start(n, m), es, w);
    hide Runs;
    if l: nat :| l < |w.ls| && IsRegistered(w.ls[l].pc) {
      assert l in Registered(w.ls);
    } else {
      assert Registered(w.ls) == {};
    }
  }

  /** A listener that is up to date looks for data once, parks, and then waits: no step of its own is left until its channel is closed. */
  lemma UpToDateListenerParks(n: nat, m: nat, es: seq<Event>, w: World, l: nat)
    requires Runs(Start(n, m), es, w) && l < |w.ls| && w.ls[l].pc == LReady(w.num)
    ensures
      Enabled(w, LStep(l)) &&
      var w1 := AfterL(w, l);
      Enabled(w1, LStep(l)) &&
      var w2 := AfterL(w1, l);
      Enabled(w2, LStep(l)) &&
      var w3 := AfterL(w2, l);
      Enabled(w3, LStep(l)) &&
      var w4 := AfterL(w3, l);
      w4.ls[l] == Listener(LParked(w.num, w.ch), w.data) && !Enabled(w4, LStep(l))
  {
    EachChannelClosedOnce(n, m, es, w);
    hide Runs;
  }
}
