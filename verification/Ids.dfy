/** Request ids: a 32-bit counter that wraps and skips the push id. */
module Ids {
  import opened MsgPack
  import opened Values

  /** Ids run through 0..2^32-2, a cycle of this length. */
  const CYCLE: nat := 0xFFFF_FFFF

  /** The id of the n-th allocation, counting from 0: the counter starts at 1. */
  function IdOf(n: nat): (id: u32)
    ensures id != PUSH_ID
  {
    (n + 1) % CYCLE
  }

  /** The counter after n allocations. */
  function CounterAfter(n: nat): u32 {
    if n == 0 then 1 else IdOf(n - 1) + 1
  }

  /** One allocation: the id taken and the counter left behind, with the push id skipped. */
  function Alloc(counter: u32): (u32, u32) {
    if counter == PUSH_ID then (0, 1) else (counter, counter + 1)
  }

  class Allocator {
    var nextID: u32

    constructor ()
      ensures nextID == CounterAfter(0) == 1
    {
      nextID := 1;
    }

    /** Takes the counter, steps it with wrap-around, and tries again on the push id. */
    method AllocID() returns (id: u32)
      modifies this
      ensures (id, nextID) == Alloc(old(nextID))
      ensures id == (if old(nextID) == 0xFFFF_FFFF then 0 else old(nextID)) && nextID == id + 1
    {
      id := 0;
      while true
        invariant nextID == old(nextID) || (nextID == 0 && old(nextID) == PUSH_ID)
        decreases nextID
      {
        id := nextID;
        nextID := (nextID + 1) % 0x1_0000_0000;
        if id != PUSH_ID { return; }
      }
    }
  }

  /** The n-th allocation from the start yields the n-th id, across every wrap-around. */
  lemma AllocIsNth(n: nat)
    ensures Alloc(CounterAfter(n)) == (IdOf(n), CounterAfter(n + 1))
  {
  }

  /** The ids in order: 1, 2, 3 and so on up to 2^32-2, then 0, and again. */
  lemma IdsCount(n: nat)
    ensures IdOf(0) == 1
    ensures IdOf(n + 1) == if IdOf(n) == 0xFFFF_FFFE then 0 else IdOf(n) + 1
  {
  }

  /** Any CYCLE consecutive allocations have distinct ids; the next one repeats the first. */
  lemma IdsDistinctInWindow(m: nat, n: nat)
    requires m < n
    ensures n - m < 0xFFFF_FFFF ==> IdOf(m) != IdOf(n)
    ensures n - m == 0xFFFF_FFFF ==> IdOf(m) == IdOf(n)
  {
    if IdOf(m) == IdOf(n) {
      var a, b := (m + 1) / CYCLE, (n + 1) / CYCLE;
      assert n - m == CYCLE * (b - a);
    }
  }
}
