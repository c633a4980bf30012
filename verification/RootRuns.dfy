/**
 * Every run of a session's credential steps, in any interleaving: a ticket
 * begins, is abandoned or registers when its grant is in force, and is released;
 * the connection's own credential is presented and ends. `World` adds to the
 * state what happened so far, so that properties of whole runs can be stated.
 */
module RootRuns {
  import opened Prelude
  import opened RootHolds

  datatype World = World(
    h: Holds,
    begun: seq<Ticket>,               // every ticket begun, in order
    inFlight: set<Ticket>,            // begun, and neither abandoned nor registered
    registered: set<Ticket>,
    superseded: map<Ticket, Ticket>,  // withdrawn ticket -> the ticket that replaced it
    released: set<Ticket>,
    presented: set<nat>,              // presentations of the connection's credential accepted so far
    connsReleased: set<nat>,
    connsWithdrawn: set<nat>)

  datatype Event =
    | BeginTicket(root: string, role: Role)
    | AbandonTicket(t: Ticket)
    | RegisterTicket(t: Ticket)
    | ReleaseTicket(t: Ticket)
    | PresentConn(p: nat)
    | ReleaseConnection(p: nat)

  function Start(connRoot: string): World {
    World(Holds(connRoot, 0, map[], {}, 0, false), [], {}, {}, map[], {}, {}, {}, {})
  }

  /** The order of calls serveTicket and serveConnection keep to. */
  predicate Enabled(w: World, e: Event) {
    match e
    case BeginTicket(_, _) => true
    case AbandonTicket(t) => t in w.inFlight
    case RegisterTicket(t) => t in w.inFlight
    case ReleaseTicket(t) => t in w.registered && t !in w.released
    case PresentConn(p) => p !in w.presented
    case ReleaseConnection(p) => p in w.presented && p !in w.connsReleased
  }

  /** The ticket that replaced h, which registers too late. */
  function Replacer(w: World, h: Ticket): Ticket {
    var st := w.h.At(h.root);
    if h.role != Funnel && st.ticket.Some? && h.num < st.ticket.value.num then st.ticket.value
    else if 0 < st.cleared <= |w.begun| then w.begun[st.cleared - 1]
    else h
  }

  /** Who stands in x's place once repl took those of the ousted. */
  function Heir(x: Ticket, ousted: set<Ticket>, repl: Ticket): Ticket { if x in ousted then repl else x }

  function Ousting(ousted: set<Ticket>, repl: Ticket): (m: map<Ticket, Ticket>)
    ensures m.Keys == ousted
  {
    map x | x in ousted :: Heir(x, ousted, repl)
  }

  function AfterBegin(w: World, root: string, role: Role): World {
    var (h, t) := Begin(w.h, root, role);
    w.(h := h, begun := w.begun + [t], inFlight := w.inFlight + {t})
  }

  function AfterAbandon(w: World, t: Ticket): World {
    w.(h := Abandon(w.h, t), inFlight := w.inFlight - {t})
  }

  function AfterRegister(w: World, t: Ticket): World {
    var r := Register(w.h, t);
    var repl := if r.current then t else Replacer(w, t);
    w.(h := r.next,
       inFlight := w.inFlight - {t},
       registered := w.registered + {t},
       superseded := w.superseded + Ousting(r.withdrawn, repl),
       connsWithdrawn := w.connsWithdrawn + r.withdrawnConns)
  }

  function AfterRelease(w: World, t: Ticket): World {
    w.(h := Release(w.h, t), released := w.released + {t})
  }

  function AfterPresent(w: World, p: nat): World {
    var (h, ok) := Present(w.h, p);
    w.(h := h, presented := if ok then w.presented + {p} else w.presented)
  }

  function AfterConnRelease(w: World, p: nat): World {
    w.(h := ReleaseConn(w.h, p), connsReleased := w.connsReleased + {p})
  }

  function Apply(w: World, e: Event): World {
    match e
    case BeginTicket(root, role) => AfterBegin(w, root, role)
    case AbandonTicket(t) => AfterAbandon(w, t)
    case RegisterTicket(t) => AfterRegister(w, t)
    case ReleaseTicket(t) => AfterRelease(w, t)
    case PresentConn(p) => AfterPresent(w, p)
    case ReleaseConnection(p) => AfterConnRelease(w, p)
  }

  ghost predicate Runs(w: World, es: seq<Event>, w': World)
    decreases |es|
  {
    if es == [] then w' == w
    else Enabled(w, es[0]) && Runs(Apply(w, es[0]), es[1..], w')
  }

  // ----- what every step keeps -----

  /** Registered, not replaced and not ended. */
  predicate InForce(w: World, t: Ticket) {
    t in w.registered && t.root != "" && t !in w.superseded && t !in w.released
  }

  /** Kept by the table as its root's ticket or among its funnel tickets. */
  predicate Kept(s: Holds, t: Ticket) {
    t.root in s.byRoot && (s.byRoot[t.root].ticket == Some(t) || t in s.byRoot[t.root].funnel)
  }

  ghost predicate Numbered(w: World) {
    && w.h.num == |w.begun|
    && (forall i :: 0 <= i < |w.begun| ==> w.begun[i].num == i + 1)
    && (forall t :: t in w.inFlight || t in w.registered ==>
          0 < t.num <= |w.begun| && w.begun[t.num - 1] == t
          && (t.retires <==> t.root != "" && t.role != Funnel && t.root == w.h.connRoot))
    && w.inFlight !! w.registered
    && w.released <= w.registered
  }

  /** A kept root holds some ticket, each of its root and kind; one of no patterns has cleared the root, and no funnel ticket began before the last clearing. */
  ghost predicate Shaped(root: string, st: RootState) {
    && root != ""
    && !st.Empty()
    && (st.ticket.Some? ==> st.ticket.value.root == root && st.ticket.value.role != Funnel)
    && (st.ticket.Some? && st.ticket.value.role == Nothing ==> st.ticket.value.num <= st.cleared)
    && (forall f :: f in st.funnel ==> f.root == root && f.role == Funnel && f.num > st.cleared)
  }

  /** `cleared` is the number of a registered ticket of no patterns for the root, or zero. */
  ghost predicate ClearedOk(w: World, root: string, cleared: nat) {
    0 < cleared ==>
      && cleared <= |w.begun|
      && var c := w.begun[cleared - 1];
      c in w.registered && c.root == root && c.role == Nothing
  }

  ghost predicate TableOk(w: World) {
    && ShapesOk(w.h)
    && (forall root :: root in w.h.byRoot ==> ClearedOk(w, root, w.h.byRoot[root].cleared))
    && ForceOk(w)
  }

  ghost predicate ShapesOk(s: Holds) {
    forall root :: root in s.byRoot ==> Shaped(root, s.byRoot[root])
  }

  /** The table keeps exactly the tickets in force. */
  ghost predicate ForceOk(w: World) {
    forall t :: InForce(w, t) <==> Kept(w.h, t)
  }

  /** repl may take the place of t: it is for the same root and begun later, and only a ticket of no patterns replaces one of funnel actions. */
  predicate MayReplace(repl: Ticket, t: Ticket) {
    && repl.root == t.root && t.num < repl.num
    && repl.role != Funnel && (t.role == Funnel ==> repl.role == Nothing)
  }

  /** Every replaced ticket was replaced by a registered one that may take its place. */
  ghost predicate SupersededOk(w: World) {
    forall t :: t in w.superseded ==>
      t in w.registered && w.superseded[t] in w.registered && MayReplace(w.superseded[t], t)
  }

  function Retiring(w: World): set<Ticket> { set t | t in w.inFlight && t.retires }

  /** The registered tickets that retired the connection's credential. */
  function Retirers(w: World): set<Ticket> { set t | t in w.registered && t.retires }

  /** `retiring` counts the tickets for the connection's root in flight. */
  ghost predicate RetiringOk(w: World) { w.h.retiring == |Retiring(w)| }

  ghost predicate ConnsOk(w: World) {
    && (w.h.connRetired <==> Retirers(w) != {})
    && (w.h.connRetired ==> w.h.conns == {})
    && (!w.h.connRetired ==> w.connsWithdrawn == {})
    && w.h.conns == w.presented - w.connsReleased - w.connsWithdrawn
    && w.connsReleased + w.connsWithdrawn <= w.presented
  }

  ghost predicate Inv(w: World) {
    Numbered(w) && TableOk(w) && SupersededOk(w) && RetiringOk(w) && ConnsOk(w)
  }

  lemma StartInv(connRoot: string)
    ensures Inv(Start(connRoot))
  {
  }

  // ----- each step keeps them -----

  /** Steps that touch no ticket in force keep what is said about those. */
  lemma TableFrame(w: World, w': World)
    requires TableOk(w) && SupersededOk(w)
    requires w'.h.byRoot == w.h.byRoot
    requires w'.registered == w.registered && w'.superseded == w.superseded && w'.released == w.released
    requires w.begun <= w'.begun
    ensures TableOk(w') && SupersededOk(w')
  {
    assert forall x :: InForce(w', x) <==> InForce(w, x);
    assert forall x :: Kept(w'.h, x) <==> Kept(w.h, x);
  }

  lemma BeginNumbered(w: World, root: string, role: Role)
    requires Numbered(w)
    ensures Numbered(AfterBegin(w, root, role))
  {
  }

  lemma BeginRetiring(w: World, root: string, role: Role)
    requires Numbered(w) && RetiringOk(w)
    ensures RetiringOk(AfterBegin(w, root, role))
  {
    var w' := AfterBegin(w, root, role);
    var t := Begin(w.h, root, role).1;
    assert t !in w.inFlight;
    assert Retiring(w') == if t.retires then Retiring(w) + {t} else Retiring(w);
  }

  /** A ticket leaves the tickets in flight, abandoned or registered. */
  lemma LeaveRetiring(w: World, w': World, t: Ticket)
    requires RetiringOk(w) && t in w.inFlight && w'.inFlight == w.inFlight - {t}
    requires w'.h.retiring == if t.retires then w.h.retiring - 1 else w.h.retiring
    ensures RetiringOk(w')
  {
    assert Retiring(w') == Retiring(w) - {t};
  }

  lemma RegisterNumbered(w: World, t: Ticket)
    requires Numbered(w) && t in w.inFlight
    ensures Numbered(AfterRegister(w, t))
  {
  }

  lemma RegisterConns(w: World, t: Ticket)
    requires Numbered(w) && ConnsOk(w) && t in w.inFlight
    ensures ConnsOk(AfterRegister(w, t))
  {
    var w' := AfterRegister(w, t);
    assert t.retires ==> t.root != "";
    if t.retires {
      assert Retirers(w') == Retirers(w) + {t};
    } else {
      assert Retirers(w') == Retirers(w);
    }
  }

  lemma ReleaseNumbered(w: World, t: Ticket)
    requires Numbered(w) && t in w.registered
    ensures Numbered(AfterRelease(w, t))
  {
  }

  lemma NumberedFrame(w: World, w': World)
    requires Numbered(w)
    requires w'.h.num == w.h.num && w'.h.connRoot == w.h.connRoot && w'.begun == w.begun
    requires w'.inFlight <= w.inFlight && w'.registered == w.registered && w'.released == w.released
    ensures Numbered(w')
  {
  }

  lemma RetiringFrame(w: World, w': World)
    requires RetiringOk(w) && w'.h.retiring == w.h.retiring && w'.inFlight == w.inFlight
    ensures RetiringOk(w')
  {
  }

  /** Some registered ticket for the same root, begun later, replaced one that registers too late. */
  lemma ReplacerLater(w: World, t: Ticket)
    requires Numbered(w) && TableOk(w) && t.root in w.h.byRoot && w.h.byRoot[t.root].Replaces(t)
    ensures
      var repl := Replacer(w, t);
      repl in w.registered && MayReplace(repl, t)
  {
    var st := w.h.byRoot[t.root];
    assert Shaped(t.root, st) && ClearedOk(w, t.root, st.cleared);
    if t.role != Funnel && st.ticket.Some? && t.num < st.ticket.value.num {
      assert Kept(w.h, st.ticket.value);
    }
  }

  /** A ticket that registers too late leaves the table as it was. */
  lemma ReplacedTable(w: World, w': World, t: Ticket, repl: Ticket)
    requires TableOk(w) && SupersededOk(w)
    requires t !in w.registered && repl in w.registered && MayReplace(repl, t)
    requires w'.h.byRoot == w.h.byRoot && w'.begun == w.begun && w'.released == w.released
    requires w'.registered == w.registered + {t} && w'.superseded == w.superseded[t := repl]
    ensures TableOk(w') && SupersededOk(w')
  {
    assert forall x :: InForce(w', x) <==> InForce(w, x);
    assert forall x :: Kept(w'.h, x) <==> Kept(w.h, x);
  }

  lemma InstalledShapes(w: World, w': World, t: Ticket, st: RootState)
    requires ShapesOk(w.h) && st == w.h.At(t.root) && t.root != "" && !st.Replaces(t) && st.cleared != t.num
    requires forall x :: x in st.funnel || st.ticket == Some(x) ==> x in w.registered && x.num != t.num
    requires w'.h.byRoot == w.h.byRoot[t.root := Installed(st, t)]
    ensures ShapesOk(w'.h)
    ensures st.ticket.Some? ==> st.ticket.value.role != Funnel
    ensures forall f :: f in st.funnel ==> f.role == Funnel
  {
  }

  /** What a registering ticket ousts is of its root and older. */
  lemma OustedOlder(st: RootState, t: Ticket)
    requires st == FRESH || Shaped(t.root, st)
    requires !st.Replaces(t)
    requires st.ticket.Some? ==> st.ticket.value.num != t.num
    ensures forall x :: x in Ousted(st, t) ==>
      MayReplace(t, x) && (st.ticket == Some(x) || x in st.funnel)
  {
  }

  lemma InstalledKept(w: World, w': World, t: Ticket, st: RootState)
    requires ForceOk(w) && st == w.h.At(t.root) && t.root != "" && NotYet(w, t)
    requires w'.h.byRoot == w.h.byRoot[t.root := Installed(st, t)] && w'.released == w.released
    requires w'.registered == w.registered + {t}
    requires forall x :: x in w'.superseded <==> x in w.superseded || x in Ousted(st, t)
    requires forall x :: x in Ousted(st, t) ==> MayReplace(t, x)
    requires st.ticket.Some? ==> st.ticket.value.role != Funnel
    requires forall f :: f in st.funnel ==> f.role == Funnel
    ensures ForceOk(w')
  {
    forall x
      ensures InForce(w', x) <==> Kept(w'.h, x)
    {
      assert InForce(w, x) <==> Kept(w.h, x);
    }
  }

  lemma RegisterTable(w: World, t: Ticket)
    requires Numbered(w) && TableOk(w) && SupersededOk(w) && t in w.inFlight
    ensures TableOk(AfterRegister(w, t)) && SupersededOk(AfterRegister(w, t))
  {
    hide *;
    var w', st := AfterRegister(w, t), w.h.At(t.root);
    FlightNotYet(w, t);
    RegisterFields(w, t);
    if t.root == "" {
      RootlessTable(w, w', t);
    } else if st.Replaces(t) {
      ReplacesKept(w, t);
      ReplacerLater(w, t);
      ReplacedTable(w, w', t, Replacer(w, t));
    } else {
      RegisterInstalled(w, w', t, st);
    }
  }

  lemma FlightNotYet(w: World, t: Ticket)
    requires Numbered(w) && SupersededOk(w) && t in w.inFlight
    ensures NotYet(w, t) && t !in w.registered
  {
  }

  lemma ReplacesKept(w: World, t: Ticket)
    requires TableOk(w) && w.h.At(t.root).Replaces(t)
    ensures t.root in w.h.byRoot && w.h.byRoot[t.root].Replaces(t) && !w.h.At(t.root).Empty()
  {
  }

  /** What registering changes, case by case. */
  lemma RegisterFields(w: World, t: Ticket)
    ensures
      var w', st := AfterRegister(w, t), w.h.At(t.root);
      && w'.begun == w.begun && w'.released == w.released
      && w'.registered == w.registered + {t} && w'.inFlight == w.inFlight - {t}
      && (t.root == "" ==> w'.h.byRoot == w.h.byRoot && w'.superseded == w.superseded)
      && (t.root != "" && st.Replaces(t) ==>
            && (!st.Empty() ==> w'.h.byRoot == w.h.byRoot)
            && w'.superseded == w.superseded[t := Replacer(w, t)])
      && (t.root != "" && !st.Replaces(t) ==>
            && w'.h.byRoot == w.h.byRoot[t.root := Installed(st, t)]
            && w'.superseded == w.superseded + Ousting(Ousted(st, t), t))
  {
  }

  lemma RootlessTable(w: World, w': World, t: Ticket)
    requires TableOk(w) && SupersededOk(w) && t.root == ""
    requires w'.h.byRoot == w.h.byRoot && w'.begun == w.begun && w'.released == w.released
    requires w'.registered == w.registered + {t} && w'.superseded == w.superseded
    ensures TableOk(w') && SupersededOk(w')
  {
    assert forall x :: InForce(w', x) <==> InForce(w, x);
    assert forall x :: Kept(w'.h, x) <==> Kept(w.h, x);
  }

  ghost predicate NotYet(w: World, t: Ticket) {
    t !in w.registered && t !in w.superseded && t !in w.released
  }

  /** The tickets a root keeps are registered ones, numbered otherwise than a ticket in flight. */
  lemma KeptOthers(w: World, t: Ticket, st: RootState)
    requires Numbered(w) && TableOk(w) && t in w.inFlight && st == w.h.At(t.root)
    ensures forall x :: x in st.funnel || st.ticket == Some(x) ==> x in w.registered && x.num != t.num
    ensures st.cleared != t.num
    ensures st == FRESH || Shaped(t.root, st)
    ensures ShapesOk(w.h) && ForceOk(w)
  {
    if t.root in w.h.byRoot {
      assert Shaped(t.root, st) && ClearedOk(w, t.root, st.cleared);
      forall x | x in st.funnel || st.ticket == Some(x)
        ensures x in w.registered
      {
        assert Kept(w.h, x);
      }
    }
  }

  lemma RegisterInstalled(w: World, w': World, t: Ticket, st: RootState)
    requires Numbered(w) && TableOk(w) && SupersededOk(w) && t in w.inFlight
    requires st == w.h.At(t.root) && t.root != "" && !st.Replaces(t) && NotYet(w, t)
    requires w'.h.byRoot == w.h.byRoot[t.root := Installed(st, t)]
    requires w'.begun == w.begun && w'.released == w.released && w'.registered == w.registered + {t}
    requires w'.superseded == w.superseded + Ousting(Ousted(st, t), t)
    ensures TableOk(w') && SupersededOk(w')
  {
    hide *;
    KeptOthers(w, t, st);
    OustedOlder(st, t);
    InstalledShapes(w, w', t, st);
    InstalledKept(w, w', t, st);
    InstalledCleared(w, w', t, st);
    OustedSuperseded(w, w', t, Ousted(st, t));
  }

  lemma InstalledCleared(w: World, w': World, t: Ticket, st: RootState)
    requires TableOk(w) && Numbered(w) && t in w.inFlight && st == w.h.At(t.root)
    requires w'.h.byRoot == w.h.byRoot[t.root := Installed(st, t)]
    requires w'.begun == w.begun && w'.registered == w.registered + {t}
    requires ShapesOk(w'.h) && ForceOk(w')
    ensures TableOk(w')
  {
    assert 0 < t.num <= |w.begun| && w.begun[t.num - 1] == t;
    hide Numbered, ShapesOk, ForceOk;
    forall root | root in w'.h.byRoot
      ensures ClearedOk(w', root, w'.h.byRoot[root].cleared)
    {
      assert root in w.h.byRoot ==> ClearedOk(w, root, w.h.byRoot[root].cleared);
    }
  }

  lemma OustedSuperseded(w: World, w': World, t: Ticket, ousted: set<Ticket>)
    requires SupersededOk(w)
    requires forall x :: x in ousted ==> x in w.registered && MayReplace(t, x)
    requires w'.registered == w.registered + {t}
    requires w'.superseded == w.superseded + Ousting(ousted, t)
    ensures SupersededOk(w')
  {
  }

  lemma ReleaseShapes(w: World, t: Ticket)
    requires ShapesOk(w.h)
    ensures ShapesOk(AfterRelease(w, t).h)
  {
  }

  lemma ReleaseForce(w: World, t: Ticket)
    requires ForceOk(w) && ShapesOk(w.h)
    ensures ForceOk(AfterRelease(w, t))
  {
    var w' := AfterRelease(w, t);
    forall x
      ensures InForce(w', x) <==> Kept(w'.h, x)
    {
      assert InForce(w, x) <==> Kept(w.h, x);
      assert x.root in w.h.byRoot ==> Shaped(x.root, w.h.byRoot[x.root]);
    }
  }

  lemma ReleaseTable(w: World, t: Ticket)
    requires TableOk(w) && SupersededOk(w)
    ensures TableOk(AfterRelease(w, t)) && SupersededOk(AfterRelease(w, t))
  {
    ReleaseShapes(w, t);
    ReleaseForce(w, t);
    hide ShapesOk, ForceOk;
  }

  lemma ApplyInv(w: World, e: Event)
    requires Inv(w) && Enabled(w, e)
    ensures Inv(Apply(w, e))
  {
    hide Numbered, TableOk, SupersededOk, RetiringOk, ConnsOk;
    var w' := Apply(w, e);
    match e
    case BeginTicket(root, role) =>
      BeginNumbered(w, root, role);
      BeginRetiring(w, root, role);
      TableFrame(w, w');
      ConnsFrame(w, w');
    case AbandonTicket(t) =>
      NumberedFrame(w, w');
      LeaveRetiring(w, w', t);
      TableFrame(w, w');
      ConnsFrame(w, w');
    case RegisterTicket(t) =>
      RegisterNumbered(w, t);
      RegisterRetiring(w, t);
      RegisterConns(w, t);
      RegisterTable(w, t);
    case ReleaseTicket(t) =>
      ReleaseNumbered(w, t);
      ReleaseTable(w, t);
      RetiringFrame(w, w');
      ConnsFrame(w, w');
    case PresentConn(p) =>
      NumberedFrame(w, w');
      RetiringFrame(w, w');
      TableFrame(w, w');
      PresentConns(w, p);
    case ReleaseConnection(p) =>
      NumberedFrame(w, w');
      RetiringFrame(w, w');
      TableFrame(w, w');
      PresentConns(w, p);
  }

  lemma RegisterRetiring(w: World, t: Ticket)
    requires Numbered(w) && RetiringOk(w) && t in w.inFlight
    ensures RetiringOk(AfterRegister(w, t))
  {
    assert t.retires ==> t.root != "";
    LeaveRetiring(w, AfterRegister(w, t), t);
  }

  lemma ConnsFrame(w: World, w': World)
    requires ConnsOk(w)
    requires w'.h.connRetired == w.h.connRetired && w'.h.conns == w.h.conns && w'.registered == w.registered
    requires w'.presented == w.presented && w'.connsReleased == w.connsReleased && w'.connsWithdrawn == w.connsWithdrawn
    ensures ConnsOk(w')
  {
  }

  lemma PresentConns(w: World, p: nat)
    requires ConnsOk(w)
    ensures p !in w.presented ==> ConnsOk(AfterPresent(w, p))
    ensures p in w.presented ==> ConnsOk(AfterConnRelease(w, p))
  {
  }

  /** Every run from the start keeps the invariant. */
  lemma {:induction false} RunInv(w: World, es: seq<Event>, w': World)
    requires Inv(w) && Runs(w, es, w')
    ensures Inv(w')
    decreases |es|
  {
    if es != [] {
      ApplyInv(w, es[0]);
      RunInv(Apply(w, es[0]), es[1..], w');
    }
  }
}
