/**
 * Which tickets of funnel actions a root keeps. They add up beside the root's
 * other ticket, and only one of no patterns clears those begun before it: unless
 * it is replaced when it registers. So the order of registration may decide, and
 * this module says exactly when it does.
 */
module FunnelTheorems {
  import opened Prelude
  import opened RootHolds
  import opened RootRuns
  import opened RootTheorems

  function Funnels(s: set<Ticket>, root: string): set<Ticket> {
    set f | f in s && f.root == root && f.role == Funnel
  }

  /** A funnel ticket of the root began before a ticket of no patterns. */
  ghost predicate Early(registered: set<Ticket>, root: string) {
    exists f, n :: EarlyPair(registered, root, f, n)
  }

  predicate EarlyPair(registered: set<Ticket>, root: string, f: Ticket, n: Ticket) {
    && f in registered && n in registered && f.root == n.root == root
    && f.role == Funnel && n.role == Nothing && f.num < n.num
  }

  /** The latest of the root's other tickets is one of no patterns. */
  ghost predicate LatestClears(w: World, root: string) {
    exists m :: IsLatest(w, root, m) && m.role == Nothing
  }

  // ----- what decides alone -----

  /** With no funnel ticket begun before one of no patterns, a root keeps every funnel ticket registered and not ended. */
  lemma FunnelUncleared(w: World, root: string)
    requires TableOk(w) && SupersededOk(w) && root != "" && !Early(w.registered, root)
    ensures w.h.At(root).funnel == Funnels(w.registered, root) - w.released
  {
    forall f
      ensures f in w.h.At(root).funnel <==> f in Funnels(w.registered, root) && f !in w.released
    {
      KeptFunnel(w, root, f);
      if f in w.superseded && f.role == Funnel && f.root == root {
        assert EarlyPair(w.registered, root, f, w.superseded[f]);
      }
    }
  }

  lemma KeptFunnel(w: World, root: string, f: Ticket)
    requires TableOk(w) && root != ""
    ensures f in w.h.At(root).funnel <==> f in Funnels(w.registered, root) && f !in w.superseded && f !in w.released
    ensures f in w.h.At(root).funnel ==> w.h.At(root).cleared < f.num
  {
    assert root in w.h.byRoot ==> Shaped(root, w.h.byRoot[root]);
    assert InForce(w, f) <==> Kept(w.h, f);
  }

  /** With the latest a ticket of no patterns in force, a root keeps exactly the funnel tickets begun after it and not ended. */
  lemma FunnelAfterClearing(w: World, root: string, m: Ticket)
    requires TableOk(w) && SupersededOk(w) && root != ""
    requires IsLatest(w, root, m) && m.role == Nothing && m !in w.released
    ensures w.h.At(root).funnel == set f | f in Funnels(w.registered, root) && f !in w.released && m.num < f.num
  {
    LatestFromInv(w, root, m);
    assert Shaped(root, w.h.byRoot[root]);
    forall f
      ensures f in w.h.At(root).funnel <==> f in Funnels(w.registered, root) && f !in w.released && m.num < f.num
    {
      KeptFunnel(w, root, f);
    }
  }

  lemma SameEarly(s: set<Ticket>, s': set<Ticket>, root: string)
    requires forall t: Ticket :: t.root == root ==> (t in s <==> t in s')
    ensures Early(s, root) <==> Early(s', root)
  {
    assert forall f, n :: EarlyPair(s, root, f, n) <==> EarlyPair(s', root, f, n);
  }

  lemma SameLatest(w: World, w': World, root: string, m: Ticket)
    requires forall t: Ticket :: t.root == root ==> (t in w.registered <==> t in w'.registered)
    ensures IsLatest(w, root, m) <==> IsLatest(w', root, m)
  {
  }

  /**
   * Two runs that registered the same tickets for a root and ended the same
   * funnel tickets of it keep the same funnel tickets, whatever the orders, if no
   * funnel ticket began before one of no patterns or the latest is of no patterns.
   */
  lemma FunnelOrderIsImmaterial(connRoot: string, es: seq<Event>, w: World, es': seq<Event>, w': World, root: string)
    requires Runs(Start(connRoot), es, w) && Runs(Start(connRoot), es', w') && root != ""
    requires forall t: Ticket :: t.root == root ==> (t in w.registered <==> t in w'.registered)
    requires forall f: Ticket :: f.root == root && f.role == Funnel ==> (f in w.released <==> f in w'.released)
    requires LatestHeld(w, root) && LatestHeld(w', root)
    requires !Early(w.registered, root) || LatestClears(w, root)
    ensures w.h.At(root).funnel == w'.h.At(root).funnel
  {
    ReachedInv(connRoot, es, w);
    ReachedInv(connRoot, es', w');
    hide *;
    AgreeOnFunnel(w, w', root);
  }

  lemma AgreeOnFunnel(w: World, w': World, root: string)
    requires Inv(w) && Inv(w') && root != ""
    requires forall t: Ticket :: t.root == root ==> (t in w.registered <==> t in w'.registered)
    requires forall f: Ticket :: f.root == root && f.role == Funnel ==> (f in w.released <==> f in w'.released)
    requires LatestHeld(w, root) && LatestHeld(w', root)
    requires !Early(w.registered, root) || LatestClears(w, root)
    ensures w.h.At(root).funnel == w'.h.At(root).funnel
  {
    hide Numbered, TableOk, SupersededOk, RetiringOk, ConnsOk, IsLatest, Early;
    if LatestClears(w, root) {
      var m :| IsLatest(w, root, m) && m.role == Nothing;
      SameLatest(w, w', root, m);
      FunnelAfterClearing(w, root, m);
      FunnelAfterClearing(w', root, m);
    } else {
      SameEarly(w.registered, w'.registered, root);
      FunnelUncleared(w, root);
      FunnelUncleared(w', root);
    }
  }

  // ----- the last clearing decides -----

  /** Whatever ended for the root had been replaced before. */
  ghost predicate OnlyReplacedEnded(w: World, root: string) {
    forall t :: t in w.released && t.root == root ==> t in w.superseded
  }

  /** A registered funnel ticket is kept exactly if it began after its root's last clearing. */
  ghost predicate Accounted(s: Holds, f: Ticket) {
    f.root in s.byRoot && (f in s.byRoot[f.root].funnel <==> s.byRoot[f.root].cleared < f.num)
  }

  ghost predicate AllAccounted(w: World) {
    forall f :: f in w.registered && f.role == Funnel && f.root != "" && OnlyReplacedEnded(w, f.root) ==> Accounted(w.h, f)
  }

  lemma OnlyReplacedBefore(w: World, e: Event, root: string)
    requires Inv(w) && Enabled(w, e) && OnlyReplacedEnded(Apply(w, e), root)
    ensures OnlyReplacedEnded(w, root)
  {
    forall t | t in w.released && t.root == root
      ensures t in w.superseded
    {
      if t !in w.superseded {
        EndedStep(w, e, t);
        assert false;
      }
    }
  }

  lemma InstalledAccounts(st: RootState, t: Ticket, f: Ticket)
    requires !st.Replaces(t) && st.cleared != t.num && f.role == Funnel
    requires f == t || (f.num != t.num && (f in st.funnel <==> st.cleared < f.num))
    ensures f in Installed(st, t).funnel <==> Installed(st, t).cleared < f.num
  {
  }

  /** f is the registering ticket, or one accounted for before. */
  lemma RegisterAccounts(w: World, t: Ticket, f: Ticket)
    requires Inv(w) && t in w.inFlight && f.root != "" && f.role == Funnel
    requires f == t || (f in w.registered && Accounted(w.h, f))
    ensures Accounted(AfterRegister(w, t).h, f)
  {
    hide Inv, AfterRegister, Installed;
    var st := w.h.At(t.root);
    RegisterAt(w, t, f.root);
    if t.root != "" {
      NewTicket(w, t, st, f);
    }
    if t.root == f.root && !st.Replaces(t) {
      InstalledAccounts(st, t, f);
    }
  }

  /** A ticket in flight is none that its root keeps, and numbered otherwise than all that registered. */
  lemma NewTicket(w: World, t: Ticket, st: RootState, f: Ticket)
    requires Inv(w) && t in w.inFlight && st == w.h.At(t.root) && t.root != ""
    ensures t !in st.funnel && st.cleared != t.num && (f in w.registered ==> f.num != t.num)
  {
    KeptOthers(w, t, st);
    KeptFunnel(w, t.root, t);
    hide TableOk, SupersededOk, RetiringOk, ConnsOk;
  }

  lemma ReleaseAccounts(w: World, t: Ticket, f: Ticket)
    requires Inv(w) && Accounted(w.h, f) && (t.root == f.root ==> t in w.superseded)
    ensures Accounted(AfterRelease(w, t).h, f)
  {
    hide Inv;
    if t.root == f.root {
      EndOfReplaced(w, t);
    }
  }

  lemma AccountsStep(w: World, e: Event)
    requires Inv(w) && AllAccounted(w) && Enabled(w, e)
    ensures AllAccounted(Apply(w, e))
  {
    hide Inv;
    var w' := Apply(w, e);
    forall f | f in w'.registered && f.role == Funnel && f.root != "" && OnlyReplacedEnded(w', f.root)
      ensures Accounted(w'.h, f)
    {
      OnlyReplacedBefore(w, e, f.root);
      assert f in w.registered ==> Accounted(w.h, f);
      match e
      case RegisterTicket(t) =>
        RegisterAccounts(w, t, f);
      case ReleaseTicket(t) =>
        ReleaseAccounts(w, t, f);
      case _ =>
    }
  }

  lemma {:induction false} RunAccounts(w: World, es: seq<Event>, w': World)
    requires Inv(w) && AllAccounted(w) && Runs(w, es, w')
    ensures Inv(w') && AllAccounted(w')
    decreases |es|
  {
    hide Inv, AllAccounted, Apply, Enabled;
    if es != [] {
      ApplyInv(w, es[0]);
      AccountsStep(w, es[0]);
      RunAccounts(Apply(w, es[0]), es[1..], w');
    }
  }

  /** While only replaced tickets of a root ended, its funnel tickets are all registered ones begun after its last clearing. */
  lemma FunnelSinceClearing(connRoot: string, es: seq<Event>, w: World, root: string)
    requires Runs(Start(connRoot), es, w) && root != "" && OnlyReplacedEnded(w, root)
    ensures w.h.At(root).funnel == set f | f in Funnels(w.registered, root) && w.h.At(root).cleared < f.num
  {
    StartInv(connRoot);
    RunAccounts(Start(connRoot), es, w);
    hide Runs, Numbered, RetiringOk, ConnsOk, TableOk;
    forall f
      ensures f in w.h.At(root).funnel <==> f in Funnels(w.registered, root) && w.h.At(root).cleared < f.num
    {
      KeptFunnel(w, root, f);
      assert f in Funnels(w.registered, root) ==> Accounted(w.h, f);
    }
  }

  // ----- otherwise the order does decide -----

  /** Every ticket begun and none registered yet: what `begun` holds, begun anew. */
  ghost predicate JustBegun(w: World, begun: seq<Ticket>) {
    && |w.begun| == |begun|
    && (forall i :: 0 <= i < |begun| ==>
          w.begun[i] == Ticket(i + 1, begun[i].root, begun[i].role,
                               begun[i].root != "" && begun[i].role != Funnel && begun[i].root == w.h.connRoot))
    && (forall i :: 0 <= i < |begun| ==> w.begun[i] in w.inFlight)
    && w.h.num == |begun| && w.h.byRoot == map[] && w.registered == {} && w.released == {}
  }

  lemma {:induction false} BeginAll(connRoot: string, begun: seq<Ticket>) returns (es: seq<Event>, w: World)
    ensures Runs(Start(connRoot), es, w) && JustBegun(w, begun) && w.h.connRoot == connRoot
    decreases |begun|
  {
    if begun == [] {
      es, w := [], Start(connRoot);
    } else {
      var n := |begun| - 1;
      var w1: World;
      es, w1 := BeginAll(connRoot, begun[..n]);
      var e := BeginTicket(begun[n].root, begun[n].role);
      RunsOn(Start(connRoot), es, w1, e);
      hide Runs;
      es, w := es + [e], Apply(w1, e);
    }
  }

  ghost predicate Distinct(ts: seq<Ticket>) {
    forall i, j :: 0 <= i < j < |ts| ==> ts[i] != ts[j]
  }

  /** The tickets of s in some order, t first. */
  lemma {:induction false} InSomeOrder(s: set<Ticket>, t: Ticket) returns (ts: seq<Ticket>)
    requires t in s
    ensures Distinct(ts) && ts != [] && ts[0] == t && forall x :: x in ts <==> x in s
    decreases |s|
  {
    var rest := s - {t};
    if rest == {} {
      ts := [t];
    } else {
      var x :| x in rest;
      var more := InSomeOrder(rest, x);
      ts := [t] + more;
    }
  }

  /** m is in force for the root, nothing was cleared, and every funnel ticket registered is kept. */
  ghost predicate Top(w: World, root: string, m: Ticket) {
    && w.h.At(root).ticket == Some(m) && w.h.At(root).cleared == 0
    && forall f :: f in w.registered && f.root == root && f.role == Funnel ==> f in w.h.At(root).funnel
  }

  /** One more ticket registered. */
  lemma RegisterMore(w0: World, es: seq<Event>, w: World, t: Ticket)
    requires Inv(w) && Runs(w0, es, w) && t in w.inFlight
    ensures Runs(w0, es + [RegisterTicket(t)], AfterRegister(w, t)) && Inv(AfterRegister(w, t))
    ensures AfterRegister(w, t).registered == w.registered + {t} && AfterRegister(w, t).inFlight == w.inFlight - {t}
    ensures AfterRegister(w, t).released == w.released
  {
    RegisterFields(w, t);
    hide Runs, Inv, AfterRegister;
    RunsOn(w0, es, w, RegisterTicket(t));
    ApplyInv(w, RegisterTicket(t));
  }

  /** While nothing ends, a root stays cleared as far as it is. */
  lemma StaysCleared(w: World, t: Ticket, root: string, n: nat)
    requires Inv(w) && t in w.inFlight && root != ""
    ensures n <= w.h.At(root).cleared ==> n <= AfterRegister(w, t).h.At(root).cleared
  {
    RegisterAt(w, t, root);
    hide Inv, AfterRegister;
  }

  /** And one never cleared stays so under its latest ticket. */
  lemma StaysTop(w: World, t: Ticket, root: string, m: Ticket)
    requires Inv(w) && t in w.inFlight && root != ""
    requires Top(w, root, m) && (t.root == root && t.role != Funnel ==> t.num < m.num)
    ensures Top(AfterRegister(w, t), root, m)
  {
    RegisterAt(w, t, root);
    RegisterFields(w, t);
    hide Inv, AfterRegister, Holds.At, Ousted, Ousting;
  }

  ghost predicate Below(ts: seq<Ticket>, root: string, m: Ticket) {
    forall i :: 0 <= i < |ts| && ts[i].root == root && ts[i].role != Funnel ==> ts[i].num < m.num
  }

  lemma OffTheFront(ts: seq<Ticket>, root: string, m: Ticket)
    requires Distinct(ts) && ts != []
    ensures Distinct(ts[1..]) && ts[0] !in ts[1..] && forall x :: x in ts <==> x == ts[0] || x in ts[1..]
    ensures Below(ts, root, m) ==> Below(ts[1..], root, m) && (ts[0].root == root && ts[0].role != Funnel ==> ts[0].num < m.num)
  {
    assert ts == [ts[0]] + ts[1..];
  }

  /** Registering tickets one after the other. */
  lemma {:induction false} RegisterAll(w0: World, es: seq<Event>, w: World, ts: seq<Ticket>, root: string, n: nat, m: Ticket)
    returns (es': seq<Event>, w': World)
    requires Inv(w) && Runs(w0, es, w) && root != ""
    requires Distinct(ts) && forall x :: x in ts ==> x in w.inFlight
    ensures Runs(w0, es', w') && Inv(w') && w'.released == w.released
    ensures forall x :: x in w'.registered <==> x in w.registered || x in ts
    ensures n <= w.h.At(root).cleared ==> n <= w'.h.At(root).cleared
    ensures Top(w, root, m) && Below(ts, root, m) ==> Top(w', root, m)
    decreases |ts|
  {
    if ts == [] {
      es', w' := es, w;
    } else {
      hide *;
      var t := ts[0];
      OffTheFront(ts, root, m);
      RegisterMore(w0, es, w, t);
      StaysCleared(w, t, root, n);
      if Top(w, root, m) && Below(ts, root, m) {
        StaysTop(w, t, root, m);
      }
      es', w' := RegisterAll(w0, es + [RegisterTicket(t)], AfterRegister(w, t), ts[1..], root, n, m);
    }
  }

  /** The registered tickets of w are in flight once all tickets begun in it are begun anew. */
  lemma FreshlyBegun(w: World, w1: World)
    requires Inv(w) && JustBegun(w1, w.begun) && w1.h.connRoot == w.h.connRoot
    ensures forall x :: x in w.registered ==> x in w1.inFlight
    ensures w1.h.byRoot == map[] && w1.registered == {} && w1.released == {}
  {
    forall x | x in w.registered
      ensures x in w1.inFlight
    {
      assert w.begun[x.num - 1] == x && w1.begun[x.num - 1] == x;
    }
  }

  /** The first ticket to register for a root clears it if it has no patterns, and has cleared nothing otherwise. */
  lemma First(w: World, root: string, t: Ticket)
    requires root != "" && w.h.byRoot == map[] && w.registered == {} && t.root == root && t.role != Funnel
    ensures t.role == Nothing ==> t.num <= AfterRegister(w, t).h.At(root).cleared
    ensures t.role == Relay ==> Top(AfterRegister(w, t), root, t)
  {
    FirstOfRoot(w, t);
    hide AfterRegister;
  }

  /** The tickets of a run begun and registered anew, with t the first of them. */
  lemma ReplayedFrom(connRoot: string, w: World, root: string, t: Ticket) returns (es: seq<Event>, w': World)
    requires Inv(w) && w.h.connRoot == connRoot && root != ""
    requires t in w.registered && t.root == root && t.role != Funnel
    ensures Runs(Start(connRoot), es, w') && Inv(w') && w'.registered == w.registered && w'.released == {}
    ensures t.role == Nothing ==> t.num <= w'.h.At(root).cleared
    ensures t.role == Relay && IsLatest(w, root, t) ==> Top(w', root, t)
  {
    hide *;
    var w1: World;
    es, w1 := BeginAll(connRoot, w.begun);
    FreshlyBegun(w, w1);
    ReachedInv(connRoot, es, w1);
    First(w1, root, t);
    RegisterMore(Start(connRoot), es, w1, t);
    var ts := InSomeOrder(w.registered, t);
    LatestAbove(w, ts, t);
    OffTheFront(ts, root, t);
    es, w' := RegisterAll(Start(connRoot), es + [RegisterTicket(t)], AfterRegister(w1, t), ts[1..], root, t.num, t);
  }

  lemma LatestAbove(w: World, ts: seq<Ticket>, t: Ticket)
    requires Inv(w) && Distinct(ts) && ts != [] && ts[0] == t && forall x :: x in ts <==> x in w.registered
    ensures IsLatest(w, t.root, t) ==> Below(ts[1..], t.root, t)
  {
    forall i | 0 < i < |ts|
      ensures ts[i].num != t.num
    {
      assert ts[i] in w.registered && t in w.registered;
    }
  }

  lemma {:induction false} SameConnRoot(w: World, es: seq<Event>, w': World)
    requires Runs(w, es, w')
    ensures w'.h.connRoot == w.h.connRoot
    decreases |es|
  {
    if es != [] {
      SameConnRoot(Apply(w, es[0]), es[1..], w');
    }
  }

  /**
   * In every other case the order decides: the tickets that some run registered,
   * registered in two other orders and none of them ended, leave a root the same
   * ticket in force and different funnel tickets.
   */
  lemma FunnelDependsOnOrder(connRoot: string, es: seq<Event>, w: World, root: string)
    returns (es1: seq<Event>, w1: World, es2: seq<Event>, w2: World)
    requires Runs(Start(connRoot), es, w) && root != ""
    requires Early(w.registered, root) && !LatestClears(w, root)
    ensures Runs(Start(connRoot), es1, w1) && w1.registered == w.registered && w1.released == {}
    ensures Runs(Start(connRoot), es2, w2) && w2.registered == w.registered && w2.released == {}
    ensures w1.h.At(root).ticket == w2.h.At(root).ticket && w1.h.At(root).ticket.Some?
    ensures w1.h.At(root).funnel != w2.h.At(root).funnel
  {
    ReachedInv(connRoot, es, w);
    SameConnRoot(Start(connRoot), es, w);
    var f, n :| EarlyPair(w.registered, root, f, n);
    assert n in Replacing(w.registered, root);
    var m := SomeLatest(w, root);
    assert m.role == Relay;
    hide *;
    es1, w1 := ReplayedFrom(connRoot, w, root, n);
    es2, w2 := ReplayedFrom(connRoot, w, root, m);
    Differ(w, w1, w2, root, f, n, m);
  }

  lemma Differ(w: World, w1: World, w2: World, root: string, f: Ticket, n: Ticket, m: Ticket)
    requires Inv(w1) && Inv(w2) && root != "" && IsLatest(w, root, m) && EarlyPair(w.registered, root, f, n)
    requires w1.registered == w.registered == w2.registered && w1.released == {} == w2.released
    requires n.num <= w1.h.At(root).cleared && Top(w2, root, m)
    ensures w1.h.At(root).ticket == w2.h.At(root).ticket == Some(m)
    ensures f in w2.h.At(root).funnel && f !in w1.h.At(root).funnel
  {
    hide Numbered, RetiringOk, ConnsOk, TableOk, SupersededOk;
    KeptFunnel(w1, root, f);
    LatestFromInv(w1, root, m);
  }
}
