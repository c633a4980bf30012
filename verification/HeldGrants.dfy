/**
 * What a session's grants in force decide about it (internal/relay/admit.go): the
 * key an anonymous session is bound to, and the deadline that closes it while it
 * holds no grant.
 *
 * The two halves of the source's heldGrants share a mutex and no field, so each
 * is a value of its own; the class `Grants` is the object that holds both.
 */
module HeldGrants {
  import opened Prelude

  // ----- the key an anonymous session is bound to -----

  datatype Binding = Binding(key: string, bound: bool, publishes: bool, inFlight: int)

  /** What a grant reports to the usage of the session. */
  datatype Call = Open(publishes: bool) | Publishing

  function BeginKey(b: Binding, kid: string): (Binding, bool) {
    if b.key == "" || b.key == kid then (b.(key := kid, inFlight := b.inFlight + 1), true)
    else (b, false)
  }

  function Refuse(b: Binding): Binding {
    b.(inFlight := b.inFlight - 1, key := if !b.bound && b.inFlight == 1 then "" else b.key)
  }

  function Grant(b: Binding, publishes: bool): (Binding, seq<Call>) {
    var b1 := b.(inFlight := b.inFlight - 1);
    if !b.bound then (b1.(bound := true, publishes := publishes), [Open(publishes)])
    else if publishes && !b.publishes then (b1.(publishes := true), [Publishing])
    else (b1, [])
  }

  // ----- the deadline -----

  /**
   * A timer of the runtime. Stopping one whose callback has started has no
   * effect: `Firing` is a callback that waits for the mutex.
   */
  datatype Timer = Armed | Stopped | Firing | Done

  datatype Deadline = Deadline(
    live: int,
    pending: bool,
    expire: bool,          // the close function is set
    timer: Option<nat>,    // the current timer
    closedFor: bool,
    timers: seq<Timer>)    // every timer ever started

  function StopTimer(d: Deadline): Deadline {
    if d.timer.Some? && d.timer.value < |d.timers| && d.timers[d.timer.value] == Armed
    then d.(timers := d.timers[d.timer.value := Stopped])
    else d
  }

  function Arm(d: Deadline): Deadline {
    var s := StopTimer(d);
    s.(timer := Some(|s.timers|), timers := s.timers + [Armed])
  }

  function Hold(d: Deadline): Deadline {
    StopTimer(d.(live := d.live + 1, pending := false))
  }

  function Unhold(d: Deadline): Deadline {
    var d1 := d.(live := d.live - 1);
    if d1.live == 0 && d1.expire then Arm(d1) else d1
  }

  function Watch(d: Deadline): Deadline {
    var d1 := d.(expire := true);
    if d1.live == 0 then Arm(d1) else d1
  }

  function Unwatch(d: Deadline): Deadline {
    StopTimer(d.(expire := false)).(pending := false)
  }

  /** The callback of timer i, once it has the mutex, and whether it closes the session. */
  function Callback(d: Deadline, i: nat): (Deadline, bool)
    requires i < |d.timers|
  {
    var d1 := d.(timers := d.timers[i := Done]);
    if d.timer != Some(i) || d.live > 0 || !d.expire then (d1, false)
    else (d1.(closedFor := true, expire := false), true)
  }

  /** The mutex-guarded object; each method body is one critical section. */
  class Grants {
    var key: string
    var bound: bool
    var publishes: bool
    var inFlight: int
    var live: int
    var pending: bool
    var expire: bool
    var timer: Option<nat>
    var closedFor: bool
    // What the object asked of its surroundings.
    var timers: seq<Timer>
    var calls: seq<Call>

    constructor ()
      ensures Key() == Binding("", false, false, 0)
      ensures Due() == Deadline(0, false, false, None, false, [])
      ensures calls == []
    {
      key, bound, publishes, inFlight := "", false, false, 0;
      live, pending, expire, timer, closedFor := 0, false, false, None, false;
      timers, calls := [], [];
    }

    ghost function Key(): Binding
      reads this
    {
      Binding(key, bound, publishes, inFlight)
    }

    ghost function Due(): Deadline
      reads this
    {
      Deadline(live, pending, expire, timer, closedFor, timers)
    }

    method BeginTicket(kid: string) returns (ok: bool)
      modifies this`key, this`inFlight
      ensures (Key(), ok) == BeginKey(old(Key()), kid)
    {
      if key == "" {
        key := kid;
      } else if key != kid {
        return false;
      }
      inFlight := inFlight + 1;
      return true;
    }

    method SettleRefused()
      modifies this`key, this`inFlight
      ensures Key() == Refuse(old(Key()))
    {
      inFlight := inFlight - 1;
      if !bound && inFlight == 0 {
        key := "";
      }
    }

    method SettleGranted(pub: bool)
      modifies this`bound, this`publishes, this`inFlight, this`calls
      ensures Key() == Grant(old(Key()), pub).0
      ensures calls == old(calls) + Grant(old(Key()), pub).1
    {
      inFlight := inFlight - 1;
      if !bound {
        bound, publishes := true, pub;
        calls := calls + [Open(pub)];
      } else if pub && !publishes {
        publishes := true;
        calls := calls + [Publishing];
      }
    }

    method CountPending()
      modifies this`pending
      ensures Due() == old(Due()).(pending := true)
    {
      pending := true;
    }

    method Holding()
      modifies this`live, this`pending, this`timers
      ensures Due() == Hold(old(Due()))
    {
      live := live + 1;
      pending := false;
      StopCurrent();
    }

    method StopCurrent()
      modifies this`timers
      ensures Due() == StopTimer(old(Due()))
    {
      if timer.Some? && timer.value < |timers| && timers[timer.value] == Armed {
        timers := timers[timer.value := Stopped];
      }
    }

    method Released()
      modifies this`live, this`timer, this`timers
      ensures Due() == Unhold(old(Due()))
    {
      live := live - 1;
      if live == 0 && expire {
        ArmLocked();
      }
    }

    method StartWatch()
      modifies this`expire, this`timer, this`timers
      ensures Due() == Watch(old(Due()))
    {
      expire := true;
      if live == 0 {
        ArmLocked();
      }
    }

    method ArmLocked()
      modifies this`timer, this`timers
      ensures Due() == Arm(old(Due()))
    {
      StopCurrent();
      timer := Some(|timers|);
      timers := timers + [Armed];
    }

    method TimerCallback(i: nat) returns (expires: bool)
      requires i < |timers|
      modifies this`closedFor, this`expire, this`timers
      ensures (Due(), expires) == Callback(old(Due()), i)
      ensures expires <==> old(timer) == Some(i) && old(live) <= 0 && old(expire)
      ensures expire == (old(expire) && !expires) && closedFor == (old(closedFor) || expires)
    {
      timers := timers[i := Done];
      if timer != Some(i) || live > 0 || !expire {
        return false;
      }
      closedFor := true;
      expire := false;
      return true;
    }

    method EndWatch()
      modifies this`expire, this`timers, this`pending
      ensures Due() == Unwatch(old(Due()))
    {
      expire := false;
      StopCurrent();
      pending := false;
    }
  }
}
