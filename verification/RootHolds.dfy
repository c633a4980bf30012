/**
 * The credentials a relay session holds for each root (internal/relay/admit.go).
 *
 * Every critical section of the source's rootHolds is one step. The step
 * functions below work on the value `Holds`; the class `Table` performs the same
 * steps on fields updated in place and is proved equal to them. Runs of steps,
 * with the history of who superseded whom, are in RootRuns.dfy.
 */
module RootHolds {
  import opened Prelude

  /** A ticket grants relay patterns, funnel actions alone, or nothing at all; by that it replaces others, adds to them, or clears them. */
  datatype Role = Funnel | Relay | Nothing

  /** A begun ticket. `num` is unique to it, so the value is the ticket's identity. */
  datatype Ticket = Ticket(num: nat, root: string, role: Role, retires: bool)

  /** The tickets in force for one root. */
  datatype RootState = RootState(ticket: Option<Ticket>, funnel: set<Ticket>, cleared: nat) {
    predicate Empty() { ticket.None? && funnel == {} }

    /** A ticket begun after h replaced it. */
    predicate Replaces(h: Ticket) {
      h.num < cleared || (h.role != Funnel && ticket.Some? && h.num < ticket.value.num)
    }
  }

  const FRESH := RootState(None, {}, 0)

  datatype Holds = Holds(
    connRoot: string,
    num: nat,
    byRoot: map<string, RootState>,
    conns: set<nat>,
    retiring: int,
    connRetired: bool)
  {
    function At(root: string): RootState {
      if root in byRoot then byRoot[root] else FRESH
    }
  }

  function Begin(s: Holds, root: string, role: Role): (Holds, Ticket) {
    var retires := root != "" && role != Funnel && root == s.connRoot;
    (s.(num := s.num + 1, retiring := if retires then s.retiring + 1 else s.retiring),
     Ticket(s.num + 1, root, role, retires))
  }

  function Abandon(s: Holds, h: Ticket): Holds {
    if h.retires then s.(retiring := s.retiring - 1) else s
  }

  predicate Replaced(s: Holds, h: Ticket) {
    h.root != "" && h.root in s.byRoot && s.byRoot[h.root].Replaces(h)
  }

  /** What registering a ticket leaves behind and whom it withdraws. */
  datatype Registered = Registered(
    next: Holds,
    current: bool,
    withdrawn: set<Ticket>,
    withdrawnConns: set<nat>)

  /** The part of a registration that concerns the connection's own credential. */
  function Retire(s: Holds, h: Ticket): Holds {
    if h.retires then s.(retiring := s.retiring - 1, connRetired := true, conns := {}) else s
  }

  /** The tickets a registering ticket of no patterns clears. */
  function Cleared(st: RootState, h: Ticket): set<Ticket> {
    if h.role == Nothing then set f | f in st.funnel && f.num < h.num else {}
  }

  /** The root's state once h, which nothing replaced, is in force. */
  function Installed(st: RootState, h: Ticket): RootState {
    if h.role == Funnel then st.(funnel := st.funnel + {h})
    else RootState(Some(h), st.funnel - Cleared(st, h),
                   if h.role == Nothing then Max(st.cleared, h.num) else st.cleared)
  }

  /** The tickets h takes the place of when it is installed. */
  function Ousted(st: RootState, h: Ticket): set<Ticket> {
    if h.role == Funnel then {}
    else Cleared(st, h) + (if st.ticket.Some? then {st.ticket.value} else {})
  }

  function Register(s: Holds, h: Ticket): Registered {
    if h.root == "" then Registered(s, true, {}, {})
    else
      var s1 := Retire(s, h);
      var st := s.At(h.root);
      var conns := if h.retires then s.conns else {};
      if st.Replaces(h) then
        Registered(if st.Empty() then s1.(byRoot := s1.byRoot - {h.root}) else s1, false, {h}, conns)
      else
        Registered(s1.(byRoot := s1.byRoot[h.root := Installed(st, h)]), true,
                   Ousted(st, h), conns)
  }

  /** The root's state without h. */
  function Without(st: RootState, h: Ticket): RootState {
    st.(ticket := if st.ticket == Some(h) then None else st.ticket, funnel := st.funnel - {h})
  }

  function Release(s: Holds, h: Ticket): Holds {
    if h.root !in s.byRoot then s
    else
      var st := Without(s.byRoot[h.root], h);
      if st.Empty() then s.(byRoot := s.byRoot - {h.root})
      else s.(byRoot := s.byRoot[h.root := st])
  }

  /** Presenting the connection's own credential again: refused while a ticket for its root is in flight, and for good once one was granted. */
  function Present(s: Holds, p: nat): (Holds, bool) {
    if s.connRetired || s.retiring > 0 then (s, false)
    else (s.(conns := s.conns + {p}), true)
  }

  function ReleaseConn(s: Holds, p: nat): Holds {
    s.(conns := s.conns - {p})
  }

  /** The mutex-guarded object itself; each method body is one critical section. */
  class Table {
    const connRoot: string
    var num: nat
    var byRoot: map<string, RootState>
    var conns: set<nat>
    var retiring: int
    var connRetired: bool
    // Every credential ended with errSuperseded so far.
    var withdrawn: set<Ticket>
    var withdrawnConns: set<nat>

    constructor (connRoot: string)
      ensures State() == Holds(connRoot, 0, map[], {}, 0, false)
      ensures withdrawn == {} && withdrawnConns == {}
    {
      this.connRoot := connRoot;
      num, byRoot, conns, retiring, connRetired := 0, map[], {}, 0, false;
      withdrawn, withdrawnConns := {}, {};
    }

    ghost function State(): Holds
      reads this
    {
      Holds(connRoot, num, byRoot, conns, retiring, connRetired)
    }

    method BeginTicket(root: string, role: Role) returns (h: Ticket)
      modifies this`num, this`retiring
      ensures (State(), h) == Begin(old(State()), root, role)
    {
      num := num + 1;
      var retires := false;
      if root != "" && role != Funnel && root == connRoot {
        retires := true;
        retiring := retiring + 1;
      }
      h := Ticket(num, root, role, retires);
    }

    method AbandonTicket(h: Ticket)
      modifies this`retiring
      ensures State() == Abandon(old(State()), h)
    {
      if h.retires {
        retiring := retiring - 1;
      }
    }

    method RegisterTicket(h: Ticket) returns (current: bool)
      modifies this`byRoot, this`conns, this`retiring, this`connRetired, this`withdrawn, this`withdrawnConns
      ensures
        var r := Register(old(State()), h);
        && State() == r.next && current == r.current
        && withdrawn == old(withdrawn) + r.withdrawn
        && withdrawnConns == old(withdrawnConns) + r.withdrawnConns
    {
      if h.root == "" {
        return true;
      }
      var st := if h.root in byRoot then byRoot[h.root] else FRESH;
      byRoot := byRoot[h.root := st];
      if h.retires {
        retiring := retiring - 1;
        connRetired := true;
        WithdrawConns();
      }
      if st.Replaces(h) {
        withdrawn := withdrawn + {h};
        if st.Empty() {
          byRoot := byRoot - {h.root};
        }
        return false;
      }
      st := Install(st, h);
      byRoot := byRoot[h.root := st];
      assert byRoot == old(byRoot)[h.root := st];
      return true;
    }

    /** The last two cases of the source's switch: h joins the funnel tickets, or takes the place of the root's ticket. */
    method Install(st: RootState, h: Ticket) returns (next: RootState)
      modifies this`withdrawn
      ensures next == Installed(st, h)
      ensures withdrawn == old(withdrawn) + Ousted(st, h)
    {
      next := st;
      if h.role == Funnel {
        next := next.(funnel := next.funnel + {h});
      } else {
        if next.ticket.Some? {
          withdrawn := withdrawn + {next.ticket.value};
        }
        next := next.(ticket := Some(h));
        if h.role == Nothing {
          var kept := ClearFunnel(next.funnel, h);
          next := next.(funnel := kept, cleared := Max(next.cleared, h.num));
        }
      }
    }

    method WithdrawConns()
      modifies this`conns, this`withdrawnConns
      ensures conns == {}
      ensures withdrawnConns == old(withdrawnConns) + old(conns)
    {
      var left := conns;
      while left != {}
        invariant left <= conns == old(conns)
        invariant withdrawnConns == old(withdrawnConns) + (conns - left)
      {
        var c :| c in left;
        withdrawnConns := withdrawnConns + {c};
        left := left - {c};
      }
      conns := {};
    }

    method ClearFunnel(funnel: set<Ticket>, h: Ticket) returns (kept: set<Ticket>)
      modifies this`withdrawn
      ensures kept == funnel - (set f | f in funnel && f.num < h.num)
      ensures withdrawn == old(withdrawn) + (set f | f in funnel && f.num < h.num)
    {
      kept := funnel;
      var left := funnel;
      while left != {}
        invariant left <= funnel
        invariant kept == funnel - (set f | f in funnel - left && f.num < h.num)
        invariant withdrawn == old(withdrawn) + (set f | f in funnel - left && f.num < h.num)
      {
        var f :| f in left;
        if f.num < h.num {
          withdrawn := withdrawn + {f};
          kept := kept - {f};
        }
        left := left - {f};
      }
    }

    method ReleaseTicket(h: Ticket)
      modifies this`byRoot
      ensures State() == Release(old(State()), h)
    {
      if h.root !in byRoot {
        return;
      }
      var cur := byRoot[h.root];
      if cur.ticket == Some(h) {
        cur := cur.(ticket := None);
      }
      cur := cur.(funnel := cur.funnel - {h});
      if cur.Empty() {
        byRoot := byRoot - {h.root};
      } else {
        byRoot := byRoot[h.root := cur];
      }
    }

    method RegisterConnection(p: nat) returns (ok: bool)
      modifies this`conns
      ensures (State(), ok) == Present(old(State()), p)
    {
      if connRetired || retiring > 0 {
        return false;
      }
      conns := conns + {p};
      return true;
    }

    method ReleaseConnection(p: nat)
      modifies this`conns
      ensures State() == ReleaseConn(old(State()), p)
    {
      conns := conns - {p};
    }
  }
}
