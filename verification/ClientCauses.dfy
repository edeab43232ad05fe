/** Why a connection dies: its first error, along any run, is that of an event that broke it. */
module ClientCauses {
  import opened Wrappers
  import opened MsgPack
  import opened Values
  import opened ClientTypes
  import opened Client
  import opened ClientWaiters
  import opened ClientHistory
  import opened ClientControl
  import opened ClientErrors
  import opened ClientRoles
  import opened ClientRetry
  import opened ClientInvariant
  import opened ClientRuns
  import Codec
  import Handshake

  /** A body that is no response, or a push nobody configured. */
  predicate Refusable(p: Params, body: Octets) {
    match Codec.DecodeResponseBody(p.floats, body)
    case None => true
    case Some(resp) => resp.id == PUSH_ID && !p.pushEnabled
  }

  /** Step st is an event for which connection c has to die with e. */
  predicate Breaks(p: Params, s: State, st: Step, c: nat, e: Err) {
    match st
    case Gate(t, TakeConn) => At(s, t) && Pc(s, t).CloseTake? && s.closed && s.current == Some(c) && e == ConnectionClosed
    case Live(t, DialSucceeds) => c == |s.conns| && Handshake.Opening(p.hs).Err? && e == ConnectionError
    case Dispatch(t, d) => At(s, t) && e == ConnectionError && BreaksDispatch(s, Pc(s, t), d, c)
    case Delivery(r, ReadFails(why)) => At(s, r) && Pc(s, r) == Reading(c) && e == why
    case Delivery(r, ReadFrame(body)) => At(s, r) && Pc(s, r) == Reading(c) && e == DecodeError && Refusable(p, body)
    case _ => false
  }

  /** A write on c fails; or an opening frame is refused by the server, or not answered in time. */
  predicate BreaksDispatch(s: State, pc: PC, d: DispatchAction, c: nat) {
    match d
    case WriteFails => pc.Writing? && pc.c == c
    case Receive =>
      pc.Awaiting? && pc.c == c && pc.m.Opening? && pc.w < |s.waiters|
      && s.waiters[pc.w].chan.Some? && s.waiters[pc.w].chan.value.Got? && s.waiters[pc.w].chan.value.resp.ResponseErr?
    case RemoveOnLeave => pc.Leaving? && pc.c == c && pc.m.Opening?
    case _ => false
  }

  ghost predicate BrokeAt(p: Params, run: seq<State>, i: nat, st: Step, c: nat, e: Err) {
    Takes(p, run, i, st) && Breaks(p, run[i], st, c, e)
  }

  /** Within the first n steps, such an event happened. */
  ghost predicate Broken(p: Params, run: seq<State>, n: nat, c: nat, e: Err) {
    exists i: nat, st :: i < n && BrokeAt(p, run, i, st, c, e)
  }

  lemma BrokenStays(p: Params, run: seq<State>, m: nat, n: nat, c: nat, e: Err)
    requires Broken(p, run, m, c, e) && m <= n
    ensures Broken(p, run, n, c, e)
  {
    hide BrokeAt;
    var i: nat, st :| i < m && BrokeAt(p, run, i, st, c, e);
  }

  // --- on the way to a kill ---

  /** The connection a thread is about to kill, and the error. */
  function Verdict(pc: PC): Option<(nat, Err)> {
    match pc
    case Unregister(c, _, _) => Some((c, ConnectionError))
    case Kill(c, e, _) => Some((c, e))
    case _ => None
  }

  predicate VerdictMove(p: Params, s: State, st: Step, pc: PC, pc': PC) {
    Verdict(pc').Some? ==>
      var (c, e) := Verdict(pc').value;
      Verdict(pc) == Verdict(pc') || Breaks(p, s, st, c, e) || Dead(s, c)
  }

  lemma GateVerdict(p: Params, s: State, t: nat, g: GateAction)
    requires At(s, t) && GateEnabled(p, s, Pc(s, t), g) && (IsClosing(Pc(s, t)) ==> s.closed)
    ensures VerdictMove(p, s, Gate(t, g), Pc(s, t), GatePc(s, Pc(s, t), g))
  {
  }

  lemma LiveVerdict(p: Params, s: State, t: nat, l: LiveAction)
    requires At(s, t) && LiveEnabled(s, Pc(s, t), l)
    ensures VerdictMove(p, s, Live(t, l), Pc(s, t), LivePc(p, s, s.threads[t], l))
  {
    hide Alive, Frames, Handshake.Opening, Handshake.Learned;
  }

  lemma DispatchVerdict(p: Params, s: State, t: nat, d: DispatchAction)
    requires At(s, t) && DispatchEnabled(s, Pc(s, t), d) && PcOk(s, Pc(s, t))
    requires d.Receive? && s.waiters[Pc(s, t).w].chan.value.Failed? ==> Dead(s, Pc(s, t).c)
    ensures VerdictMove(p, s, Dispatch(t, d), Pc(s, t), DispatchPc(s, s.threads[t], d))
  {
    hide CleanPc, SendingOk, DeliveringOk;
  }

  lemma DeliveryVerdict(p: Params, s: State, t: nat, v: DeliveryAction)
    requires At(s, t) && DeliveryEnabled(s, Pc(s, t), v) && PcOk(s, Pc(s, t))
    ensures VerdictMove(p, s, Delivery(t, v), Pc(s, t), DeliveryPc(p, s, s.threads[t], v))
  {
    hide Codec.DecodeResponseBody, CleanPc, DeliveringOk;
  }

  /** A failure is received only on a dead connection. */
  lemma FailureMeansDeath(s: State, t: nat)
    requires WaitersOk(s) && ErrorsOk(s) && At(s, t) && Pc(s, t).Awaiting? && Pc(s, t).w < |s.waiters|
    requires s.waiters[Pc(s, t).w].chan.Some? && s.waiters[Pc(s, t).w].chan.value.Failed?
    ensures Dead(s, Pc(s, t).c) && s.conns[Pc(s, t).c].error == Some(s.waiters[Pc(s, t).w].chan.value.e)
    ensures Local(s.waiters[Pc(s, t).w].chan.value.e)
  {
    var w := Pc(s, t).w;
    assert ThreadOk(s, t) && ChannelOk(s, w) && SentOk(s, s.waiters[w]);
    assert s.waiters[w].chan.value in s.waiters[w].sends;
    assert LinkOk(s.conns[s.waiters[w].conn]);
  }

  lemma MoverVerdict(p: Params, s: State, st: Step)
    requires WaitersOk(s) && ErrorsOk(s) && RolesOk(s) && Enabled(p, s, st) && !st.BeginCall? && !st.BeginClose?
    ensures VerdictMove(p, s, st, Pc(s, st.t), Moved(p, s, st).pc)
  {
    hide VerdictMove, GatePc, LivePc, DispatchPc, DeliveryPc, WaitersOk, GateEnabled, LiveEnabled, DeliveryEnabled, Suits, HoldsLock;
    assert PcOk(s, Pc(s, st.t)) && RoleOk(s, st.t);
    hide PcOk, RoleOk;
    match st {
      case Gate(t, g) =>
        ClosersClosed(s, t);
        GateVerdict(p, s, t, g);
      case Live(t, l) => LiveVerdict(p, s, t, l);
      case Dispatch(t, d) =>
        if d.Receive? && s.waiters[Pc(s, t).w].chan.value.Failed? { FailureMeansDeath(s, t); }
        DispatchVerdict(p, s, t, d);
      case Delivery(t, v) => DeliveryVerdict(p, s, t, v);
    }
  }

  lemma ClosersClosed(s: State, t: nat)
    requires At(s, t) && RoleOk(s, t)
    ensures IsClosing(Pc(s, t)) ==> s.closed
  {
  }

  // --- over runs ---

  /** A thread about to kill a connection has a reason, unless the connection is dead already. */
  ghost predicate Justified(p: Params, run: seq<State>, n: nat, s: State, pc: PC) {
    Verdict(pc).Some? ==>
      var (c, e) := Verdict(pc).value;
      Dead(s, c) || Broken(p, run, n, c, e)
  }

  lemma JustifiedStays(p: Params, run: seq<State>, n: nat, s: State, s': State, pc: PC)
    requires Justified(p, run, n, s, pc) && Grows(s, s')
    ensures Justified(p, run, n + 1, s', pc)
  {
    hide Broken, Grows;
    if Verdict(pc).Some? {
      var (c, e) := Verdict(pc).value;
      if Broken(p, run, n, c, e) { BrokenStays(p, run, n, n + 1, c, e); } else { DeadStays(s, s', c); }
    }
  }

  lemma DeadStays(s: State, s': State, c: nat)
    requires Dead(s, c) && Grows(s, s')
    ensures Dead(s', c)
  {
    assert ConnGrows(s.conns[c], s'.conns[c]);
  }

  lemma {:induction false} KillsAreJustified(p: Params, run: seq<State>, n: nat, t: nat)
    requires IsRun(p, run) && n < |run| && At(run[n], t)
    ensures Justified(p, run, n, run[n], Pc(run[n], t))
  {
    hide Enabled, Apply, IsRun, Moved, Justified, Takes, Grows;
    if n == 0 {
      StartKillsNothing(p, run, t);
    } else {
      var s, s' := run[n - 1], run[n];
      var st := StepOf(p, run, n - 1);
      TookStep(p, run, n - 1, st);
      StepThreads(p, s, st, s');
      StepGrows(p, s, st, s');
      if t < |s.threads| {
        KillsAreJustified(p, run, n - 1, t);
        if !st.BeginCall? && !st.BeginClose? && st.t == t {
          MoverJustified(p, run, n - 1, st);
        } else {
          JustifiedStays(p, run, n - 1, s, s', Pc(s, t));
        }
      } else {
        NewKillsNothing(p, run, n, s, st, s', Pc(s', t));
      }
    }
  }

  lemma StartKillsNothing(p: Params, run: seq<State>, t: nat)
    requires IsRun(p, run) && At(run[0], t)
    ensures Justified(p, run, 0, run[0], Pc(run[0], t))
  {
  }

  lemma NewKillsNothing(p: Params, run: seq<State>, n: nat, s: State, st: Step, s': State, pc: PC)
    requires pc == NewReader(|s.conns|).pc || pc == NEW_CLOSER.pc || (st.BeginCall? && pc == NewCaller(s, st.cmd).pc)
    ensures Justified(p, run, n, s', pc)
  {
  }

  lemma MoverJustified(p: Params, run: seq<State>, i: nat, st: Step)
    requires IsRun(p, run) && Takes(p, run, i, st) && !st.BeginCall? && !st.BeginClose? && Grows(run[i], run[i + 1])
    requires Justified(p, run, i, run[i], Pc(run[i], st.t))
    ensures Justified(p, run, i + 1, run[i + 1], Moved(p, run[i], st).pc)
  {
    assert At(run[i], st.t);
    hide Apply, Enabled, IsRun, Moved, Broken, Breaks, Grows;
    var s, s', pc, pc' := run[i], run[i + 1], Pc(run[i], st.t), Moved(p, run[i], st).pc;
    assert VerdictMove(p, s, st, pc, pc') by {
      assert WaitersOk(s) && ErrorsOk(s) && RolesOk(s) by {
        hide WaitersOk, ErrorsOk, RolesOk;
        RunKeepsInvariant(p, run, i);
      }
      MoverVerdict(p, s, st);
    }
    if Verdict(pc').Some? {
      var (c, e) := Verdict(pc').value;
      if Breaks(p, s, st, c, e) {
        BrokenNow(p, run, i, st, c, e);
      } else if Dead(s, c) {
        DeadStays(s, s', c);
      } else {
        BrokenStays(p, run, i, i + 1, c, e);
      }
    }
  }

  lemma BrokenNow(p: Params, run: seq<State>, i: nat, st: Step, c: nat, e: Err)
    requires Takes(p, run, i, st) && Breaks(p, run[i], st, c, e)
    ensures Broken(p, run, i + 1, c, e)
  {
    hide Takes, Breaks;
    assert BrokeAt(p, run, i, st, c, e);
  }

  /** The error a connection died with is that of an event that broke it. */
  lemma {:induction false} FirstErrorHasCause(p: Params, run: seq<State>, n: nat, c: nat)
    requires IsRun(p, run) && n < |run| && c < |run[n].conns| && run[n].conns[c].error.Some?
    ensures Broken(p, run, n, c, run[n].conns[c].error.value)
  {
    hide Enabled, Apply, IsRun, Takes, Broken, ErrorsOk;
    if n == 0 {
      NoConnAtStart(p, run);
    } else {
      var s, s' := run[n - 1], run[n];
      var st := StepOf(p, run, n - 1);
      TookStep(p, run, n - 1, st);
      ErrorMoves(p, s, st, s', c);
      if c < |s.conns| && s.conns[c].error.Some? {
        FirstErrorHasCause(p, run, n - 1, c);
      } else {
        KillsAreJustified(p, run, n - 1, st.t);
        assert !Dead(s, c) by { RunKeepsInvariant(p, run, n - 1); LiveHasNoError(s, c); }
      }
      BrokenStays(p, run, n - 1, n, c, s'.conns[c].error.value);
    }
  }

  lemma NoConnAtStart(p: Params, run: seq<State>)
    requires IsRun(p, run)
    ensures run[0].conns == []
  {
  }

  lemma LiveHasNoError(s: State, c: nat)
    requires ErrorsOk(s) && c < |s.conns| && s.conns[c].error.None?
    ensures !Dead(s, c)
  {
    assert LinkOk(s.conns[c]);
  }

  lemma ErrorMoves(p: Params, s: State, st: Step, s': State, c: nat)
    requires Enabled(p, s, st) && s' == Apply(p, s, st) && c < |s'.conns| && s'.conns[c].error.Some?
    ensures (c < |s.conns| && s.conns[c].error == s'.conns[c].error)
      || (c < |s.conns| && s.conns[c].error.None? && st.Delivery? && st.v.PoisonSwap? && At(s, st.t)
          && Verdict(Pc(s, st.t)) == Some((c, s'.conns[c].error.value)))
  {
    hide Apply, Adds, Frames;
    StepConns(p, s, st, s');
    if c < |s.conns| { assert FateIs(p, s, st, s', c); }
  }

  // --- and the other way round ---

  lemma BreakCondemns(p: Params, s: State, st: Step, c: nat, e: Err)
    requires Enabled(p, s, st) && Breaks(p, s, st, c, e)
    ensures !st.BeginCall? && !st.BeginClose? && Verdict(Moved(p, s, st).pc) == Some((c, e))
  {
    hide Codec.DecodeResponseBody, Alive;
  }

  lemma CondemnedMoves(p: Params, s: State, st: Step)
    requires Enabled(p, s, st) && !st.BeginCall? && !st.BeginClose? && Verdict(Pc(s, st.t)).Some?
    ensures Verdict(Moved(p, s, st).pc) == Verdict(Pc(s, st.t)) || (st.Delivery? && st.v.PoisonSwap? && Pc(s, st.t).Kill?)
  {
  }

  lemma SwapKills(p: Params, s: State, st: Step, s': State)
    requires Enabled(p, s, st) && s' == Apply(p, s, st) && st.Delivery? && st.v.PoisonSwap? && Pc(s, st.t).c < |s.conns|
    ensures Dead(s', Pc(s, st.t).c)
  {
    hide Apply;
    StepConns(p, s, st, s');
    assert FateIs(p, s, st, s', Pc(s, st.t).c);
  }

  /** After an event that breaks it, a connection is dead, or the thread that saw the
      event is on its way to kill it with that error. */
  lemma {:induction false} BrokenConnectionsDie(p: Params, run: seq<State>, i: nat, n: nat, st: Step, c: nat, e: Err)
    requires IsRun(p, run) && i < n < |run| && BrokeAt(p, run, i, st, c, e)
    ensures !st.BeginCall? && !st.BeginClose?
    ensures Dead(run[n], c) || (At(run[n], st.t) && Verdict(Pc(run[n], st.t)) == Some((c, e)))
  {
    hide Enabled, Apply, IsRun, Moved, Takes, Breaks, Grows, Verdict, Dead, ErrorsOk;
    TookStep(p, run, i, st);
    BreakCondemns(p, run[i], st, c, e);
    var s, s' := run[n - 1], run[n];
    var now := StepOf(p, run, n - 1);
    if n == i + 1 {
      StepThreads(p, s, st, s');
    } else {
      BrokenConnectionsDie(p, run, i, n - 1, st, c, e);
      TookStep(p, run, n - 1, now);
      StepThreads(p, s, now, s');
      StepGrows(p, s, now, s');
      if Dead(s, c) {
        DeadStays(s, s', c);
      } else if !now.BeginCall? && !now.BeginClose? && now.t == st.t {
        CondemnedMoves(p, s, now);
        if Verdict(Moved(p, s, now).pc) != Verdict(Pc(s, st.t)) {
          assert ErrorsOk(s) by { RunKeepsInvariant(p, run, n - 1); }
          VerdictMeans(s, st.t, c, e);
          SwapKills(p, s, now, s');
        }
      }
    }
  }

  lemma VerdictMeans(s: State, t: nat, c: nat, e: Err)
    requires ErrorsOk(s) && At(s, t) && Verdict(Pc(s, t)) == Some((c, e)) && Pc(s, t).Kill?
    ensures Pc(s, t).c == c < |s.conns|
  {
    assert PcOk(s, Pc(s, t));
  }
}
