/**
 * How far a root is cleared, and so which tickets are current when they register,
 * from what happened alone: which tickets registered, were replaced and ended.
 */
module ClearingTheorems {
  import opened Prelude
  import opened RootHolds
  import opened RootRuns
  import opened RootTheorems

  /** Some ticket is in force for the root. */
  ghost predicate Held(w: World, root: string) { exists t :: InForce(w, t) && t.root == root }

  /** How far a root is cleared after e led to w: not at all if nothing is in force for it, up to a ticket of no patterns that e put in force, else as far as before. */
  ghost function ClearedBy(w: World, e: Event, root: string, before: nat): nat {
    if !Held(w, root) then 0
    else if e.RegisterTicket? && e.t.root == root && e.t.role == Nothing && InForce(w, e.t) then Max(before, e.t.num)
    else before
  }

  /** The same at the end of a run. */
  ghost function Clearing(w: World, es: seq<Event>, root: string, before: nat): nat
    decreases |es|
  {
    if es == [] then before
    else
      var w1 := Apply(w, es[0]);
      Clearing(w1, es[1..], root, ClearedBy(w1, es[0], root, before))
  }

  lemma HeldIsKept(w: World, root: string)
    requires Inv(w) && root != ""
    ensures Held(w, root) <==> root in w.h.byRoot
  {
    hide Numbered, SupersededOk, RetiringOk, ConnsOk;
    if root in w.h.byRoot {
      var st := w.h.byRoot[root];
      assert Shaped(root, st);
      var t :| st.ticket == Some(t) || t in st.funnel;
      assert Kept(w.h, t);
      assert InForce(w, t);
    }
    if t :| InForce(w, t) && t.root == root {
      assert Kept(w.h, t);
    }
  }

  /** A ticket is in force right after it registered exactly if nothing had replaced it. */
  lemma InForceWhenCurrent(w: World, t: Ticket)
    requires Inv(w) && t in w.inFlight && t.root != ""
    ensures InForce(AfterRegister(w, t), t) <==> !w.h.At(t.root).Replaces(t)
  {
    ApplyInv(w, RegisterTicket(t));
    NewTicket(w, t);
    RegisterFields(w, t);
    hide Inv, AfterRegister, RootState.Replaces;
  }

  lemma NewTicket(w: World, t: Ticket)
    requires Inv(w) && t in w.inFlight && t.root != ""
    ensures t !in w.superseded && t !in w.released && t !in Ousted(w.h.At(t.root), t)
  {
    KeptOthers(w, t, w.h.At(t.root));
    hide TableOk, RetiringOk, ConnsOk;
  }

  lemma RegisterCleared(w: World, t: Ticket, root: string)
    requires Inv(w) && t in w.inFlight && root != ""
    ensures
      var w' := AfterRegister(w, t);
      w'.h.At(root).cleared == ClearedBy(w', RegisterTicket(t), root, w.h.At(root).cleared)
  {
    hide Inv, Held, AfterRegister, InForce, RootState.Replaces;
    var w' := AfterRegister(w, t);
    ApplyInv(w, RegisterTicket(t));
    RegisterAt(w, t, root);
    HeldIsKept(w', root);
    if t.root == root {
      InForceWhenCurrent(w, t);
    }
  }

  /** What is not in the table is not cleared; any other root stays cleared as far as it was. */
  lemma OtherCleared(w: World, e: Event, root: string)
    requires !e.RegisterTicket?
    ensures
      var w' := Apply(w, e);
      w'.h.At(root).cleared == if root in w'.h.byRoot then w.h.At(root).cleared else 0
  {
  }

  lemma ClearedStep(w: World, e: Event, root: string)
    requires Inv(w) && Enabled(w, e) && root != ""
    ensures Apply(w, e).h.At(root).cleared == ClearedBy(Apply(w, e), e, root, w.h.At(root).cleared)
  {
    if e.RegisterTicket? {
      RegisterCleared(w, e.t, root);
      hide *;
    } else {
      OtherCleared(w, e, root);
      hide Inv, Held, Apply, Enabled, Holds.At;
      ApplyInv(w, e);
      HeldIsKept(Apply(w, e), root);
    }
  }

  lemma {:induction false} RunCleared(w: World, es: seq<Event>, w': World, root: string)
    requires Inv(w) && Runs(w, es, w') && root != ""
    ensures Inv(w') && w'.h.At(root).cleared == Clearing(w, es, root, w.h.At(root).cleared)
    decreases |es|
  {
    hide Inv, Apply, Enabled, ClearedBy, Holds.At;
    if es != [] {
      ApplyInv(w, es[0]);
      ClearedStep(w, es[0], root);
      RunCleared(Apply(w, es[0]), es[1..], w', root);
    }
  }

  /**
   * A ticket whose grant is being applied is current when it registers exactly if
   * no later ticket that replaces others is in force for its root, unless it is of
   * funnel actions alone, and its root was not cleared since by a later ticket of
   * no patterns, whether that one has ended or not. `replaced` says the same
   * beforehand, and a ticket of no root is always current.
   */
  lemma CurrentExactlyWhen(connRoot: string, es: seq<Event>, w: World, t: Ticket)
    requires Runs(Start(connRoot), es, w) && t in w.inFlight
    ensures t.root == "" ==> Register(w.h, t).current && !Replaced(w.h, t)
    ensures t.root != "" ==>
              (Register(w.h, t).current <==>
                && Clearing(Start(connRoot), es, t.root, 0) < t.num
                && (t.role != Funnel ==> forall x :: InForce(w, x) && x.root == t.root && x.role != Funnel ==> x.num < t.num))
    ensures Replaced(w.h, t) <==> !Register(w.h, t).current
  {
    if t.root != "" {
      StartInv(connRoot);
      RunCleared(Start(connRoot), es, w, t.root);
      hide Runs, Clearing;
      CurrentIs(w, t);
    }
  }

  lemma CurrentIs(w: World, t: Ticket)
    requires Inv(w) && t in w.inFlight && t.root != ""
    ensures Register(w.h, t).current <==>
              && w.h.At(t.root).cleared < t.num
              && (t.role != Funnel ==> forall x :: InForce(w, x) && x.root == t.root && x.role != Funnel ==> x.num < t.num)
    ensures Replaced(w.h, t) <==> !Register(w.h, t).current
  {
    var st := w.h.At(t.root);
    KeptOthers(w, t, st);
    assert forall x: Ticket :: x.root == t.root ==> (InForce(w, x) <==> Kept(w.h, x));
    hide Numbered, TableOk, SupersededOk, RetiringOk, ConnsOk, InForce;
    if st.ticket.Some? {
      assert Kept(w.h, st.ticket.value);
    }
  }

  // ----- a clearing outlives the ticket that made it -----

  /** Some ticket is in force for the root at every point of the run. */
  ghost predicate AlwaysHeld(w: World, es: seq<Event>, root: string)
    decreases |es|
  {
    Held(w, root) && (es != [] ==> AlwaysHeld(Apply(w, es[0]), es[1..], root))
  }

  lemma {:induction false} ClearedFurther(w: World, es: seq<Event>, root: string, before: nat)
    requires AlwaysHeld(w, es, root)
    ensures before <= Clearing(w, es, root, before)
    decreases |es|
  {
    if es != [] {
      var w1 := Apply(w, es[0]);
      assert Held(w1, root);
      hide Held, Apply, InForce;
      ClearedFurther(w1, es[1..], root, ClearedBy(w1, es[0], root, before));
    }
  }

  /**
   * Once a ticket of no patterns was current, no ticket for its root begun before
   * it is current when it registers, whatever ended meanwhile, as long as the root
   * was never without a ticket in force.
   */
  lemma NarrowedToNothing(w: World, n: Ticket, es: seq<Event>, w': World, t: Ticket)
    requires Inv(w) && n in w.inFlight && n.root != "" && n.role == Nothing && Register(w.h, n).current
    requires Runs(AfterRegister(w, n), es, w') && AlwaysHeld(AfterRegister(w, n), es, n.root)
    requires t.root == n.root && t.num < n.num
    ensures Replaced(w'.h, t) && !Register(w'.h, t).current
  {
    hide Runs, AlwaysHeld, AfterRegister, Inv, Clearing;
    var w1 := AfterRegister(w, n);
    ApplyInv(w, RegisterTicket(n));
    RegisterAt(w, n, n.root);
    RunCleared(w1, es, w', n.root);
    ClearedFurther(w1, es, n.root, w1.h.At(n.root).cleared);
  }
}
