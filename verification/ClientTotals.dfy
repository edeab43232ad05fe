/** Sums over all threads, and what one step does to them. */
module ClientTotals {
  import opened Client

  function Total(f: Thread -> nat, ths: seq<Thread>): nat {
    if ths == [] then 0 else f(ths[0]) + Total(f, ths[1..])
  }

  lemma {:induction false} TotalUpdate(f: Thread -> nat, ths: seq<Thread>, t: nat, th: Thread)
    requires t < |ths|
    ensures Total(f, ths[t := th]) + f(ths[t]) == Total(f, ths) + f(th)
  {
    var after := ths[t := th];
    if t == 0 {
      assert after[1..] == ths[1..];
    } else {
      assert after[1..] == ths[1..][t - 1 := th];
      TotalUpdate(f, ths[1..], t - 1, th);
    }
  }

  lemma {:induction false} TotalAppend(f: Thread -> nat, ths: seq<Thread>, th: Thread)
    ensures Total(f, ths + [th]) == Total(f, ths) + f(th)
  {
    var all := ths + [th];
    if ths == [] {
      assert all[1..] == [];
    } else {
      assert all[1..] == ths[1..] + [th];
      TotalAppend(f, ths[1..], th);
    }
  }

  /** A part is at most the whole. */
  lemma {:induction false} TotalAtLeast(f: Thread -> nat, ths: seq<Thread>, t: nat)
    requires t < |ths|
    ensures f(ths[t]) <= Total(f, ths)
  {
    if t > 0 {
      assert ths[1..][t - 1] == ths[t];
      TotalAtLeast(f, ths[1..], t - 1);
    }
  }

  /** A set of threads each of which counts at least one is no larger than the sum. */
  lemma {:induction false} TotalBoundsSet(f: Thread -> nat, ths: seq<Thread>, members: set<nat>)
    requires forall t | t in members :: t < |ths| && f(ths[t]) >= 1
    ensures |members| <= Total(f, ths)
    decreases |ths|
  {
    if ths == [] {
      assert members == {};
    } else {
      var n := |ths| - 1;
      assert ths == ths[..n] + [ths[n]];
      TotalAppend(f, ths[..n], ths[n]);
      TotalBoundsSet(f, ths[..n], members - {n});
      assert members <= (members - {n}) + {n};
      Smaller(members, members - {n}, n);
    }
  }

  lemma Smaller(a: set<nat>, b: set<nat>, n: nat)
    requires b == a - {n}
    ensures |a| <= |b| + 1
  {
    if n in a { assert a == b + {n}; } else { assert a == b; }
  }

  /** The sum over the threads after a step of thread t that may start another thread. */
  lemma TotalStep(f: Thread -> nat, ths: seq<Thread>, t: nat, th: Thread, started: seq<Thread>)
    requires t < |ths| && |started| <= 1
    ensures Total(f, ths[t := th] + started) + f(ths[t])
      == Total(f, ths) + f(th) + (if started == [] then 0 else f(started[0]))
  {
    TotalUpdate(f, ths, t, th);
    if started == [] {
      assert ths[t := th] + started == ths[t := th];
    } else {
      assert started == [started[0]];
      TotalAppend(f, ths[t := th], started[0]);
    }
  }
}
