/** What holds of a session's credentials at every point of every run. */
module RootTheorems {
  import opened Prelude
  import opened RootHolds
  import opened RootRuns

  lemma ReachedInv(connRoot: string, es: seq<Event>, w: World)
    requires Runs(Start(connRoot), es, w)
    ensures Inv(w)
  {
    hide *;
    StartInv(connRoot);
    RunInv(Start(connRoot), es, w);
  }

  function TicketsOf(st: RootState): set<Ticket> {
    st.funnel + (if st.ticket.Some? then {st.ticket.value} else {})
  }

  /**
   * At every point of every run the tickets the table keeps for a root are
   * exactly those registered, not replaced and not ended; no root is kept with
   * none; and every kept funnel ticket began after the root's last clearing.
   */
  lemma TableIsWhatIsInForce(connRoot: string, es: seq<Event>, w: World, root: string)
    requires Runs(Start(connRoot), es, w) && root != ""
    ensures TicketsOf(w.h.At(root)) ==
            set t | t in w.registered && t.root == root && t !in w.superseded && t !in w.released
    ensures root in w.h.byRoot ==> TicketsOf(w.h.byRoot[root]) != {}
    ensures forall f :: f in w.h.At(root).funnel ==> f.role == Funnel && f.num > w.h.At(root).cleared
    ensures w.h.At(root).ticket.Some? ==> w.h.At(root).ticket.value.role != Funnel
  {
    ReachedInv(connRoot, es, w);
    TableFromInv(w, root);
  }

  lemma TableFromInv(w: World, root: string)
    requires TableOk(w) && root != ""
    ensures TicketsOf(w.h.At(root)) ==
            set t | t in w.registered && t.root == root && t !in w.superseded && t !in w.released
    ensures root in w.h.byRoot ==> TicketsOf(w.h.byRoot[root]) != {}
    ensures forall f :: f in w.h.At(root).funnel ==> f.role == Funnel && f.num > w.h.At(root).cleared
    ensures w.h.At(root).ticket.Some? ==> w.h.At(root).ticket.value.role != Funnel
  {
    var st := w.h.At(root);
    if root in w.h.byRoot {
      assert Shaped(root, st);
      assert st.Empty() <==> TicketsOf(st) == {};
    }
    forall t
      ensures t in TicketsOf(st) <==> t in w.registered && t.root == root && t !in w.superseded && t !in w.released
    {
      assert InForce(w, t) <==> Kept(w.h, t);
    }
  }

  /** Whoever was withdrawn as superseded was replaced by a registered ticket for the same root whose grant began later, and a funnel ticket only by one of no patterns. */
  lemma SupersededByLater(connRoot: string, es: seq<Event>, w: World, t: Ticket)
    requires Runs(Start(connRoot), es, w) && t in w.superseded
    ensures w.superseded[t] in w.registered && w.superseded[t].root == t.root && t.num < w.superseded[t].num
    ensures w.superseded[t].role != Funnel && (t.role == Funnel ==> w.superseded[t].role == Nothing)
  {
    ReachedInv(connRoot, es, w);
  }

  // ----- the ticket in force -----

  /** The latest begun of the tickets registered for a root that are not of funnel actions alone. */
  ghost predicate IsLatest(w: World, root: string, t: Ticket) {
    && t in w.registered && t.root == root && t.role != Funnel
    && forall x :: x in w.registered && x.root == root && x.role != Funnel ==> x.num <= t.num
  }

  /**
   * Whatever order slow grants finished in and whatever ended meanwhile, the
   * latest begun of a root's registered tickets is the one in force exactly
   * until it ends itself.
   */
  lemma LatestBegunIsInForce(connRoot: string, es: seq<Event>, w: World, root: string, t: Ticket)
    requires Runs(Start(connRoot), es, w) && root != "" && IsLatest(w, root, t)
    ensures w.h.At(root).ticket == Some(t) <==> t !in w.released
    ensures t !in w.superseded
  {
    ReachedInv(connRoot, es, w);
    LatestFromInv(w, root, t);
  }

  lemma LatestFromInv(w: World, root: string, t: Ticket)
    requires TableOk(w) && SupersededOk(w) && root != "" && IsLatest(w, root, t)
    ensures w.h.At(root).ticket == Some(t) <==> t !in w.released
    ensures t !in w.superseded
  {
    assert InForce(w, t) <==> Kept(w.h, t);
    assert root in w.h.byRoot ==> Shaped(root, w.h.byRoot[root]);
  }

  /** With no such ticket registered there is none in force. */
  lemma NoneRegisteredNoneInForce(w: World, root: string)
    requires TableOk(w) && root != "" && w.h.At(root).ticket.Some?
    ensures
      var t := w.h.At(root).ticket.value;
      t in w.registered && t.root == root && t.role != Funnel
  {
    var t := w.h.At(root).ticket.value;
    assert Shaped(root, w.h.byRoot[root]);
    assert InForce(w, t) <==> Kept(w.h, t);
  }

  /** Every non-empty set of numbered tickets has a latest one. */
  lemma {:induction false} LatestExists(s: set<Ticket>) returns (t: Ticket)
    requires s != {}
    ensures t in s && forall x :: x in s ==> x.num <= t.num
    decreases |s|
  {
    var a :| a in s;
    if s == {a} {
      t := a;
    } else {
      t := LatestExists(s - {a});
      if t.num < a.num {
        t := a;
      }
    }
  }

  function Replacing(registered: set<Ticket>, root: string): set<Ticket> {
    set t | t in registered && t.root == root && t.role != Funnel
  }

  /** Some registered ticket is the latest, if there is any that replaces others. */
  lemma SomeLatest(w: World, root: string) returns (t: Ticket)
    requires Replacing(w.registered, root) != {}
    ensures IsLatest(w, root, t)
  {
    t := LatestExists(Replacing(w.registered, root));
    assert forall x :: x in w.registered && x.root == root && x.role != Funnel ==> x in Replacing(w.registered, root);
  }

  /** The latest has not ended. */
  ghost predicate LatestHeld(w: World, root: string) {
    forall t :: IsLatest(w, root, t) ==> t !in w.released
  }

  /** Two runs that registered the same tickets for a root, in whatever orders, agree on its ticket in force as long as the latest begun has not ended. */
  lemma OrderOfRegistrationIsImmaterial(connRoot: string, es: seq<Event>, w: World, es': seq<Event>, w': World, root: string)
    requires Runs(Start(connRoot), es, w) && Runs(Start(connRoot), es', w') && root != ""
    requires Replacing(w.registered, root) == Replacing(w'.registered, root)
    requires LatestHeld(w, root) && LatestHeld(w', root)
    ensures w.h.At(root).ticket == w'.h.At(root).ticket
  {
    ReachedInv(connRoot, es, w);
    ReachedInv(connRoot, es', w');
    hide Runs;
    AgreeFromInv(w, w', root);
  }

  lemma AgreeFromInv(w: World, w': World, root: string)
    requires TableOk(w) && SupersededOk(w) && TableOk(w') && SupersededOk(w') && root != ""
    requires Replacing(w.registered, root) == Replacing(w'.registered, root)
    requires LatestHeld(w, root) && LatestHeld(w', root)
    ensures w.h.At(root).ticket == w'.h.At(root).ticket
  {
    var ts := Replacing(w.registered, root);
    assert forall x :: x in ts <==> x in w'.registered && x.root == root && x.role != Funnel;
    hide TableOk, SupersededOk;
    if ts == {} {
      if w.h.At(root).ticket.Some? {
        NoneRegisteredNoneInForce(w, root);
      }
      if w'.h.At(root).ticket.Some? {
        NoneRegisteredNoneInForce(w', root);
      }
    } else {
      var t := SomeLatest(w, root);
      assert IsLatest(w', root, t);
      LatestFromInv(w, root, t);
      LatestFromInv(w', root, t);
    }
  }

  // ----- a ticket found replaced stays replaced -----

  /** The end of a ticket that was replaced changes nothing: it was not kept. */
  lemma EndOfReplaced(w: World, x: Ticket)
    requires Inv(w) && x in w.superseded
    ensures AfterRelease(w, x).h.byRoot == w.h.byRoot
  {
    hide Numbered, SupersededOk, RetiringOk, ConnsOk;
    assert InForce(w, x) <==> Kept(w.h, x);
    if x.root in w.h.byRoot {
      var st := w.h.byRoot[x.root];
      assert Shaped(x.root, st);
      assert Without(st, x) == st;
    }
  }

  /** Whoever a registration withdraws is the ticket itself, or was in force. */
  lemma OustedInForce(w: World, t: Ticket, x: Ticket)
    requires Inv(w) && t.root != "" && x in Ousted(w.h.At(t.root), t)
    ensures x !in w.released
  {
    hide Numbered, SupersededOk, RetiringOk, ConnsOk;
    var st := w.h.At(t.root);
    assert st.ticket == Some(x) || x in st.funnel;
    assert Shaped(t.root, st);
    assert InForce(w, x) <==> Kept(w.h, x);
  }

  /** A ticket that ended in force is never counted as replaced afterwards. */
  lemma EndedStep(w: World, e: Event, x: Ticket)
    requires Inv(w) && Enabled(w, e) && x in w.released && x !in w.superseded
    ensures x in Apply(w, e).released && x !in Apply(w, e).superseded
  {
    if e.RegisterTicket? {
      var t := e.t;
      assert x != t;
      hide Inv;
      RegisterFields(w, t);
      hide AfterRegister, Ousted, RootState.Replaces;
      if t.root != "" && x in Ousted(w.h.At(t.root), t) {
        OustedInForce(w, t, x);
      }
    }
    hide Inv;
  }

  lemma {:induction false} EndedInForce(w: World, es: seq<Event>, w': World, x: Ticket)
    requires Inv(w) && Runs(w, es, w') && x in w.released && x !in w.superseded
    ensures x in w'.released && x !in w'.superseded
    decreases |es|
  {
    if es != [] {
      ApplyInv(w, es[0]);
      EndedStep(w, es[0], x);
      EndedInForce(Apply(w, es[0]), es[1..], w', x);
    }
  }

  /** What replaced t before x was installed, or x itself, replaces it afterwards. */
  lemma InstalledReplaces(st: RootState, x: Ticket, t: Ticket)
    requires st.Replaces(t) && !st.Replaces(x)
    ensures Installed(st, x).Replaces(t)
  {
  }

  /** What a registration makes of a root: it installs the ticket, or leaves the root as it is. */
  lemma RegisterAt(w: World, t: Ticket, root: string)
    requires Inv(w) && t in w.inFlight && root != ""
    ensures AfterRegister(w, t).h.At(root) ==
            if t.root == root && !w.h.At(root).Replaces(t) then Installed(w.h.At(root), t) else w.h.At(root)
    ensures root in AfterRegister(w, t).h.byRoot <==> root in w.h.byRoot || t.root == root
    ensures t.num > 0
  {
    RegisterFields(w, t);
    if w.h.At(t.root).Replaces(t) {
      ReplacesKept(w, t);
    }
    assert t.num > 0;
    hide Inv, AfterRegister, RootState.Replaces, Installed, Ousted, Ousting;
  }

  lemma ReplacedStep(w: World, e: Event, t: Ticket)
    requires Inv(w) && Enabled(w, e) && Replaced(w.h, t)
    requires e.ReleaseTicket? && e.t.root == t.root ==> e.t in w.superseded
    ensures Replaced(Apply(w, e).h, t)
  {
    hide Inv;
    match e
    case RegisterTicket(x) =>
      RegisterAt(w, x, t.root);
      hide AfterRegister, Installed, RootState.Replaces;
      if x.root == t.root && !w.h.At(t.root).Replaces(x) {
        InstalledReplaces(w.h.At(t.root), x, t);
      }
    case ReleaseTicket(x) =>
      if x.root == t.root {
        EndOfReplaced(w, x);
      }
    case _ =>
  }

  /**
   * A ticket that `replaced` reported stale is not current whenever it
   * registers, as long as whatever ended for its root in between had been
   * replaced itself.
   */
  lemma {:induction false} StaleNeverCurrent(w: World, es: seq<Event>, w': World, t: Ticket)
    requires Inv(w) && Replaced(w.h, t) && Runs(w, es, w')
    requires forall x :: x in w'.released && x !in w.released && x.root == t.root ==> x in w'.superseded
    ensures Replaced(w'.h, t) && !Register(w'.h, t).current
    decreases |es|
  {
    if es != [] {
      var e, w1 := es[0], Apply(w, es[0]);
      ReleasedGrows(w, e);
      hide Inv, Enabled, Apply, Replaced, Register;
      ApplyInv(w, e);
      if e.ReleaseTicket? && e.t.root == t.root && e.t !in w.superseded {
        EndedInForce(w1, es[1..], w', e.t);
        assert false;
      }
      ReplacedStep(w, e, t);
      StaleNeverCurrent(w1, es[1..], w', t);
    }
  }

  lemma ReleasedGrows(w: World, e: Event)
    requires Enabled(w, e)
    ensures w.released <= Apply(w, e).released
    ensures e.ReleaseTicket? ==> e.t !in w.released && e.t in Apply(w, e).released && Apply(w, e).superseded == w.superseded
  {
  }

  // ----- the connection's own credential -----

  /**
   * `retiring` is the number of tickets for the connection's root in flight; a
   * presentation is accepted exactly while there is none and none was ever
   * granted; those held are the accepted ones neither ended nor withdrawn; and
   * with no such ticket granted nothing was withdrawn.
   */
  lemma Retirement(connRoot: string, es: seq<Event>, w: World, p: nat)
    requires Runs(Start(connRoot), es, w)
    ensures w.h.retiring == |set t | t in w.inFlight && t.retires|
    ensures forall t :: t in w.inFlight || t in w.registered ==>
              (t.retires <==> t.root != "" && t.root == w.h.connRoot && t.role != Funnel)
    ensures Present(w.h, p).1 <==> forall t :: t in w.inFlight || t in w.registered ==> !t.retires
    ensures w.h.conns == w.presented - w.connsReleased - w.connsWithdrawn
    ensures (forall t :: t in w.registered ==> !t.retires) ==> w.connsWithdrawn == {} && !w.h.connRetired
    ensures (exists t :: t in w.registered && t.retires) ==> w.h.conns == {}
  {
    ReachedInv(connRoot, es, w);
    hide TableOk, SupersededOk, Runs;
    RetirersEmpty(w);
  }

  lemma RetirersEmpty(w: World)
    ensures Retirers(w) == {} <==> forall t :: t in w.registered ==> !t.retires
    ensures |Retiring(w)| == 0 <==> forall t :: t in w.inFlight ==> !t.retires
  {
    if t :| t in w.registered && t.retires {
      assert t in Retirers(w);
    }
    if t :| t in w.inFlight && t.retires {
      assert t in Retiring(w);
    } else {
      assert Retiring(w) == {};
    }
  }

  /** A granted ticket for the connection's root withdraws every presentation held. */
  lemma GrantWithdrawsPresentations(w: World, t: Ticket)
    requires Inv(w) && t in w.inFlight && t.retires
    ensures AfterRegister(w, t).h.connRetired
    ensures AfterRegister(w, t).h.conns == {}
    ensures AfterRegister(w, t).connsWithdrawn == w.connsWithdrawn + w.h.conns
  {
    hide TableOk, SupersededOk, RetiringOk;
  }

  /** From then on no presentation is accepted or held, whatever else happens. */
  lemma {:induction false} RetiredForGood(w: World, es: seq<Event>, w': World)
    requires Inv(w) && w.h.connRetired && Runs(w, es, w')
    ensures w'.h.connRetired && w'.h.conns == {} && w'.presented == w.presented
    decreases |es|
  {
    if es != [] {
      ApplyInv(w, es[0]);
      RetiredStep(w, es[0]);
      RetiredForGood(Apply(w, es[0]), es[1..], w');
    }
  }

  lemma RetiredStep(w: World, e: Event)
    requires w.h.connRetired
    ensures Apply(w, e).h.connRetired && Apply(w, e).presented == w.presented
  {
  }

  // ----- what does not hold -----

  lemma RunsOn(w: World, es: seq<Event>, w1: World, e: Event)
    requires Runs(w, es, w1) && Enabled(w1, e)
    ensures Runs(w, es + [e], Apply(w1, e))
    decreases |es|
  {
    if es == [] {
      assert Runs(Apply(w1, e), [], Apply(w1, e));
      assert (es + [e])[1..] == [];
    } else {
      RunsOn(Apply(w, es[0]), es[1..], w1, e);
      assert (es + [e])[0] == es[0] && (es + [e])[1..] == es[1..] + [e];
    }
  }

  /** Two tickets of a root begun, and nothing else. */
  lemma TwoBegun(connRoot: string, root: string, roles: (Role, Role)) returns (w: World)
    requires root != "" && roles.0 != Funnel && roles.1 != Funnel
    ensures Runs(Start(connRoot), [BeginTicket(root, roles.0), BeginTicket(root, roles.1)], w)
    ensures w.inFlight == {Ticket(1, root, roles.0, root == connRoot), Ticket(2, root, roles.1, root == connRoot)}
    ensures w.h.byRoot == map[] && w.registered == {} && w.released == {}
  {
    var w0, e1, e2 := Start(connRoot), BeginTicket(root, roles.0), BeginTicket(root, roles.1);
    var w1 := Apply(w0, e1);
    w := Apply(w1, e2);
    assert [e1, e2][1..] == [e2] && [e2][1..] == [];
    assert Runs(w1, [e2], w);
  }

  /**
   * Once the latest has ended nothing is left to compare with: a ticket found
   * replaced before is then in force as soon as it registers. So it is for every
   * root and whatever the two tickets grant.
   */
  lemma SlowGrantAfterForgetting(connRoot: string, root: string, roles: (Role, Role)) returns (es: seq<Event>, w: World, w': World)
    requires root != "" && roles.0 != Funnel && roles.1 != Funnel
    ensures
      var slow, quick := Ticket(1, root, roles.0, root == connRoot), Ticket(2, root, roles.1, root == connRoot);
      && Runs(Start(connRoot), es, w) && Replaced(w.h, slow)
      && Runs(Start(connRoot), es + [ReleaseTicket(quick)] + [RegisterTicket(slow)], w')
      && IsLatest(w', root, quick) && w'.h.At(root).ticket == Some(slow)
  {
    var slow, quick := Ticket(1, root, roles.0, root == connRoot), Ticket(2, root, roles.1, root == connRoot);
    var w0 := Start(connRoot);
    var w2 := TwoBegun(connRoot, root, roles);
    es := [BeginTicket(root, roles.0), BeginTicket(root, roles.1)];
    w := AfterRegister(w2, quick);
    FirstOfRoot(w2, quick);
    var w4 := AfterRelease(w, quick);
    LastOfRoot(w, quick);
    w' := AfterRegister(w4, slow);
    FirstOfRoot(w4, slow);
    hide Runs, AfterRegister, AfterRelease;
    RunsOn(w0, es, w2, RegisterTicket(quick));
    es := es + [RegisterTicket(quick)];
    RunsOn(w0, es, w, ReleaseTicket(quick));
    RunsOn(w0, es + [ReleaseTicket(quick)], w4, RegisterTicket(slow));
  }

  /** A ticket that registers for a root that keeps none. */
  lemma FirstOfRoot(w: World, t: Ticket)
    requires t.root != "" && t.root !in w.h.byRoot && t.role != Funnel
    ensures
      var w' := AfterRegister(w, t);
      && w'.h.byRoot == w.h.byRoot[t.root := Installed(FRESH, t)]
      && w'.h.At(t.root).ticket == Some(t) && w'.h.At(t.root).funnel == {}
      && w'.registered == w.registered + {t} && w'.inFlight == w.inFlight - {t} && w'.released == w.released
  {
    RegisterFields(w, t);
    hide AfterRegister;
  }

  /** The end of a root's only ticket. */
  lemma LastOfRoot(w: World, t: Ticket)
    requires t.root in w.h.byRoot && w.h.byRoot[t.root].ticket == Some(t) && w.h.byRoot[t.root].funnel == {}
    ensures
      var w' := AfterRelease(w, t);
      && w'.h.byRoot == w.h.byRoot - {t.root}
      && w'.registered == w.registered && w'.inFlight == w.inFlight && w'.released == w.released + {t}
  {
  }
}
