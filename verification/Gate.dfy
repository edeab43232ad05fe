/**
 The in-flight gate: a permit count bounded by the configured limit, and a closed
 flag. What one operation does to it is a function, which the class below and the
 steps of the running client share.
 */
module Gate {
  import opened Wrappers
  import opened ClientTypes

  datatype Permits = Permits(held: nat, closed: bool)

  /** The capacity of the permit channel: a limit below one is taken as one. */
  function Capacity(limit: int): nat { if limit < 1 then 1 else limit }

  /** A send on the permit channel goes through. */
  predicate HasRoom(g: Permits, capacity: nat) { g.held < capacity }

  function Entered(g: Permits): Permits { g.(held := g.held + 1) }

  function Left(g: Permits): Permits
    requires g.held > 0
  {
    g.(held := g.held - 1)
  }

  function Shut(g: Permits): Permits { g.(closed := true) }

  /** The cases of the waiting select. */
  datatype Case = Permit | Closed | Context

  datatype Entry = Granted | Refused(e: Err) | Waiting

  class PermitGate {
    const capacity: nat
    var held: nat
    var closed: bool

    function View(): Permits reads this { Permits(held, closed) }

    ghost predicate Valid() reads this { held <= capacity && capacity >= 1 }

    constructor (limit: int)
      ensures Valid() && capacity == Capacity(limit) == (if limit < 1 then 1 else limit)
      ensures held == 0 && !closed
    {
      capacity := if limit < 1 then 1 else limit;
      held := 0;
      closed := false;
    }

    /** The first select of acquire, and the re-check after a permit was taken. */
    method IsClosed() returns (b: bool)
      ensures b == View().closed
    {
      b := closed;
    }

    /** One send on the permit channel; it would block exactly when the gate is full. */
    method Take() returns (taken: bool)
      requires Valid()
      modifies this
      ensures Valid() && taken == HasRoom(old(View()), capacity) == (old(held) < capacity) && closed == old(closed)
      ensures held == if taken then old(held) + 1 else old(held)
      ensures View() == if taken then Entered(old(View())) else old(View())
    {
      taken := held < capacity;
      if taken { held := held + 1; }
    }

    /** One receive from the permit channel. */
    method Release()
      requires Valid() && held > 0
      modifies this
      ensures Valid() && View() == Left(old(View())) && held == old(held) - 1 && closed == old(closed)
    {
      held := held - 1;
    }

    method Close()
      requires Valid()
      modifies this
      ensures Valid() && View() == Shut(old(View())) && closed && held == old(held)
    {
      closed := true;
    }

    /** acquire. A Close may land before the waiting select (`early`) and between the
        permit and the re-check (`late`); `context` is the error of an ended context,
        and of the cases that are ready the select takes `pick`, if it is one of them.
        A permit is granted only by a gate that has room and is open to the end; a
        refusal leaves no permit behind, and names the close or the context. Waiting
        is the case in which none is ready. */
    method Acquire(context: Option<Err>, pick: Case, early: bool, late: bool) returns (r: Entry)
      requires Valid()
      modifies this
      ensures Valid()
      ensures r.Granted? ==> old(held) < capacity && held == old(held) + 1 && !closed && !old(closed)
      ensures !r.Granted? ==> held == old(held)
      ensures r.Refused? ==> (r.e == ConnectionClosed && closed) || context == Some(r.e)
      ensures r.Waiting? <==> !old(closed) && !early && context.None? && old(held) >= capacity
      ensures old(closed) ==> r == Refused(ConnectionClosed)
      ensures !old(closed) && !early && old(held) < capacity && (context.None? || pick.Permit?) ==>
        r == if late then Refused(ConnectionClosed) else Granted
      ensures !old(closed) && context.Some? && pick.Context? ==> r == Refused(context.value)
      ensures old(closed) ==> closed
      ensures closed ==> old(closed) || early || late
    {
      var c := IsClosed();
      if c { return Refused(ConnectionClosed); }
      if early { Close(); }
      c := IsClosed();
      if pick.Context? && context.Some? { return Refused(context.value); }
      if pick.Closed? && c { return Refused(ConnectionClosed); }
      var taken := Take();
      if taken {
        if late { Close(); }
        c := IsClosed();
        if c {
          Release();
          return Refused(ConnectionClosed);
        }
        return Granted;
      }
      if c { return Refused(ConnectionClosed); }
      if context.Some? { return Refused(context.value); }
      return Waiting;
    }
  }
}
