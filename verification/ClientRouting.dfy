/** A caller waits under the id of the frame it wrote, on the connection it wrote it to. */
module ClientRouting {
  import opened MsgPack
  import opened Client
  import opened ClientWaiters
  import opened ClientHistory
  import opened ClientControl
  import opened ClientErrors
  import Handshake

  /** The i-th frame on connection c is thread t's request under this id. */
  predicate FrameIs(s: State, c: nat, i: nat, t: nat, m: Mode, id: u32) {
    c < |s.conns| && i < |s.conns[c].written|
    && s.conns[c].written[i].mode == m && s.conns[c].written[i].owner == t && s.conns[c].written[i].req.id == id
  }

  ghost predicate OnTheWire(s: State, c: nat, t: nat, m: Mode, id: u32) {
    exists i: nat :: FrameIs(s, c, i, t, m, id)
  }

  predicate HasWritten(pc: PC) { pc.Awaiting? || pc.Leaving? }

  ghost predicate WroteIt(s: State, t: nat)
    requires At(s, t)
  {
    var pc := Pc(s, t);
    HasWritten(pc) ==> pc.w < |s.waiters| && OnTheWire(s, pc.c, t, pc.m, s.waiters[pc.w].id)
  }

  ghost predicate RoutingOk(s: State) {
    forall t: nat | t < |s.threads| :: WroteIt(s, t)
  }

  lemma WireStays(s: State, s': State, c: nat, t: nat, m: Mode, id: u32)
    requires OnTheWire(s, c, t, m, id) && ConnsGrow(s, s')
    ensures OnTheWire(s', c, t, m, id)
  {
    var i: nat :| FrameIs(s, c, i, t, m, id);
    assert ConnGrows(s.conns[c], s'.conns[c]);
    assert FrameIs(s', c, i, t, m, id);
  }

  predicate WaitsOn(st: Step, pc: PC, pc': PC) {
    HasWritten(pc') ==>
      && (HasWritten(pc) || (st.Dispatch? && st.d.WriteSucceeds? && pc.Writing?))
      && (pc'.c, pc'.m, pc'.w) == (pc.c, pc.m, pc.w)
  }

  /** Only a complete write leads to waiting. */
  lemma WaitingFollowsWriting(p: Params, s: State, st: Step)
    requires Enabled(p, s, st) && !st.BeginCall? && !st.BeginClose?
    ensures WaitsOn(st, Pc(s, st.t), Moved(p, s, st).pc)
  {
    hide Handshake.Opening, Frames, Handshake.Learned, Alive, Received, OnBody;
  }

  lemma WritingPuts(p: Params, s: State, t: nat, s': State)
    requires At(s, t) && Pc(s, t).Writing? && Pc(s, t).c < |s.conns| && Pc(s, t).w < |s.waiters|
    requires s' == ApplyDispatch(p, s, t, WriteSucceeds)
    ensures OnTheWire(s', Pc(s, t).c, t, Pc(s, t).m, s.waiters[Pc(s, t).w].id)
  {
    hide Frames;
    assert FrameIs(s', Pc(s, t).c, |s.conns[Pc(s, t).c].written|, t, Pc(s, t).m, s.waiters[Pc(s, t).w].id);
  }

  lemma RoutingStep(p: Params, s: State, st: Step, s': State)
    requires RoutingOk(s) && WaitersOk(s) && ErrorsOk(s) && Enabled(p, s, st) && s' == Apply(p, s, st)
    ensures RoutingOk(s')
  {
    hide Apply, Enabled, Moved, OnTheWire, WaitersOk, ErrorsOk;
    StepGrows(p, s, st, s');
    StepThreads(p, s, st, s');
    forall t: nat | t < |s'.threads| ensures WroteIt(s', t) {
      if !st.BeginCall? && !st.BeginClose? && t == st.t {
        assert WroteIt(s, t);
        MoverWrote(p, s, st, s');
      } else if t < |s.threads| {
        assert WroteIt(s, t);
        if HasWritten(Pc(s, t)) {
          assert WaiterGrows(s.waiters[Pc(s, t).w], s'.waiters[Pc(s, t).w]);
          WireStays(s, s', Pc(s, t).c, t, Pc(s, t).m, s.waiters[Pc(s, t).w].id);
        }
      }
    }
  }

  lemma MoverWrote(p: Params, s: State, st: Step, s': State)
    requires WaitersOk(s) && ErrorsOk(s) && Enabled(p, s, st) && s' == Apply(p, s, st) && Grows(s, s')
    requires !st.BeginCall? && !st.BeginClose? && WroteIt(s, st.t)
    requires At(s', st.t) && s'.threads[st.t] == Moved(p, s, st)
    ensures WroteIt(s', st.t)
  {
    hide ApplyGate, ApplyLive, ApplyDispatch, ApplyDelivery, Moved, OnTheWire;
    WaitingFollowsWriting(p, s, st);
    var pc := Pc(s, st.t);
    if HasWritten(Pc(s', st.t)) {
      assert ThreadOk(s, st.t) && PcOk(s, pc);
      assert WaiterGrows(s.waiters[pc.w], s'.waiters[pc.w]);
      if HasWritten(pc) {
        WireStays(s, s', pc.c, st.t, pc.m, s.waiters[pc.w].id);
      } else {
        WritingPuts(p, s, st.t, s');
      }
    }
  }

  lemma InitRoutingOk()
    ensures RoutingOk(Init())
  {
  }
}
