/**
 The shared part of one connection: the liveness flag and the pending table,
 both guarded by one mutex. Each operation below is one critical section.
 */
module ConnTable {
  import opened Wrappers
  import opened MsgPack

  /** Waiters are named by numbers. */
  datatype Table = Table(alive: bool, pending: map<u32, nat>)

  const FRESH := Table(true, map[])

  /** Registration and the liveness check are one critical section. */
  function Registered(t: Table, id: u32, w: nat): Option<Table> {
    if t.alive then Some(t.(pending := t.pending[id := w])) else None
  }

  function Removed(t: Table, id: u32): Table { t.(pending := t.pending - {id}) }

  function Taken(t: Table, id: u32): Option<nat> {
    if id in t.pending then Some(t.pending[id]) else None
  }

  function Poisoned(t: Table): Table { Table(false, map[]) }

  function Drained(t: Table): set<nat> { t.pending.Values }

  class ConnCore {
    var alive: bool
    var pending: map<u32, nat>

    function View(): Table reads this { Table(alive, pending) }

    constructor ()
      ensures View() == FRESH
    {
      alive := true;
      pending := map[];
    }

    method IsAlive() returns (b: bool)
      ensures b == View().alive
    {
      b := alive;
    }

    method Register(id: u32, w: nat) returns (ok: bool)
      modifies this
      ensures ok == Registered(old(View()), id, w).Some?
      ensures View() == if ok then Registered(old(View()), id, w).value else old(View())
      ensures ok == old(alive) == alive && pending == if ok then old(pending)[id := w] else old(pending)
    {
      if !alive { return false; }
      pending := pending[id := w];
      ok := true;
    }

    method Remove(id: u32)
      modifies this
      ensures View() == Removed(old(View()), id) && alive == old(alive)
      ensures forall k :: k in pending <==> k in old(pending) && k != id
      ensures forall k | k in pending :: pending[k] == old(pending)[k]
    {
      pending := pending - {id};
    }

    method Take(id: u32) returns (w: Option<nat>)
      modifies this
      ensures w == Taken(old(View()), id) && View() == Removed(old(View()), id) && alive == old(alive)
      ensures if id in old(pending) then w == Some(old(pending)[id]) else w == None
      ensures id !in pending && forall k | k != id :: k in pending <==> k in old(pending)
      ensures forall k | k in pending :: pending[k] == old(pending)[k]
    {
      w := if id in pending then Some(pending[id]) else None;
      pending := pending - {id};
    }

    /** Marks the connection dead and hands the waiting calls to the poisoner. */
    method Poison() returns (drained: set<nat>)
      modifies this
      ensures drained == Drained(old(View())) && View() == Poisoned(old(View()))
      ensures !alive && pending == map[] && forall w :: w in drained <==> exists id :: id in old(pending) && old(pending)[id] == w
    {
      alive := false;
      drained := pending.Values;
      pending := map[];
    }
  }
}
