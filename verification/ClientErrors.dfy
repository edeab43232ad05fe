/**
 Which errors travel where: a connection dies with the error of its first
 poison and keeps it, everything failed on it gets that error, a response goes
 to the waiter with its id, and the write-failure marker never leaves dispatchOnce.
 */
module ClientErrors {
  import opened Wrappers
  import opened MsgPack
  import opened ClientTypes
  import opened ConnTable
  import opened Client
  import opened ClientWaiters
  import opened ClientHistory
  import opened ClientControl
  import Codec
  import Handshake

  /** The connection a thread is busy with. */
  function ConnOf(pc: PC): Option<nat> {
    match pc
    case CheckAlive(seen) => seen
    case ReCheckAlive(seen) => seen
    case Unlock(Go(c)) => Some(c)
    case Greeting(c, _, _) => Some(c)
    case SetInfo(c, _) => Some(c)
    case Install(c) => Some(c)
    case Alloc(c, _) => Some(c)
    case Register(c, _, _, _) => Some(c)
    case Writing(c, _, _) => Some(c)
    case Unregister(c, _, _) => Some(c)
    case Awaiting(c, _, _) => Some(c)
    case Leaving(c, _, _, _) => Some(c)
    case Kill(c, _, _) => Some(c)
    case Sending(c, _, _, _) => Some(c)
    case Reading(c) => Some(c)
    case Delivering(c, _, _) => Some(c)
    case Dropping(c) => Some(c)
    case _ => None
  }

  /** Errors that arise on this side: not a server's answer, nor the write-failure marker. */
  predicate Local(e: Err) { !e.WriteFailed? && !e.ServerError? }

  /** The errors a thread carries along. */
  predicate CleanPc(pc: PC) {
    match pc
    case Kill(_, e, after) => Local(e) && CleanAfter(after)
    case Sending(_, e, _, after) => Local(e) && CleanAfter(after)
    case Leaving(_, _, _, e) => Local(e)
    case Redial(e) => Local(e) && e != AuthError
    case Unlock(Bail(e)) => Local(e)
    case Release(out) => out != Err(WriteFailed)
    case Done(out) => out != Err(WriteFailed)
    case _ => true
  }

  predicate CleanAfter(after: After) {
    after.AfterGreeting? ==> Local(after.why)
  }

  ghost predicate SendingOk(s: State, pc: PC)
    requires pc.Sending?
  {
    && pc.c < |s.conns| && !s.conns[pc.c].table.alive
    && (pc.drained != {} ==> s.conns[pc.c].error == Some(pc.e))
    && (forall w | w in pc.drained && w < |s.waiters| :: s.waiters[w].conn == pc.c)
  }

  ghost predicate DeliveringOk(s: State, pc: PC)
    requires pc.Delivering?
  {
    pc.w < |s.waiters| ==> s.waiters[pc.w].conn == pc.c && s.waiters[pc.w].id == pc.resp.id
  }

  ghost predicate PcOk(s: State, pc: PC) {
    && CleanPc(pc)
    && (ConnOf(pc).Some? ==> ConnOf(pc).value < |s.conns|)
    && (pc.Sending? ==> SendingOk(s, pc))
    && (pc.Delivering? ==> DeliveringOk(s, pc))
  }

  /** Dead exactly when poisoned, and empty when dead. */
  predicate LinkOk(conn: Conn) {
    && (conn.table.alive <==> conn.error.None?)
    && (!conn.table.alive ==> conn.table.pending == map[])
  }

  /** What was sent to a waiter. */
  ghost predicate SentOk(s: State, x: Waiter) {
    forall d | d in x.sends ::
      match d
      case Failed(e) => Local(e) && x.conn < |s.conns| && s.conns[x.conn].error == Some(e)
      case Got(resp, from) => from == x.conn && resp.id == x.id
  }

  ghost predicate LinksOk(s: State) { forall c: nat | c < |s.conns| :: LinkOk(s.conns[c]) }

  ghost predicate AllSentOk(s: State) { forall w: nat | w < |s.waiters| :: SentOk(s, s.waiters[w]) }

  ghost predicate ErrorsOk(s: State) {
    && (forall t: nat | t < |s.threads| :: PcOk(s, Pc(s, t)))
    && LinksOk(s) && AllSentOk(s)
    && (s.current.Some? ==> s.current.value < |s.conns|)
  }

  // --- what growth keeps ---

  lemma PcStaysOk(s: State, s': State, pc: PC)
    requires Grows(s, s') && PcOk(s, pc)
    requires forall w | w in Carried(pc) :: w < |s.waiters|
    ensures PcOk(s', pc)
  {
    if pc.Sending? {
      assert ConnGrows(s.conns[pc.c], s'.conns[pc.c]);
      forall w | w in pc.drained && w < |s'.waiters| ensures s'.waiters[w].conn == pc.c {
        assert w in Carried(pc);
        assert WaiterGrows(s.waiters[w], s'.waiters[w]);
      }
    } else if pc.Delivering? {
      assert pc.w in Carried(pc);
      assert WaiterGrows(s.waiters[pc.w], s'.waiters[pc.w]);
    }
  }

  lemma SentStaysOk(s: State, s': State, x: Waiter)
    requires Grows(s, s') && SentOk(s, x)
    ensures SentOk(s', x)
  {
    if x.conn < |s.conns| { assert ConnGrows(s.conns[x.conn], s'.conns[x.conn]); }
  }

  // --- the thread that moves ---

  /** A place in the code that carries no waiter. */
  predicate PlainOk(n: nat, pc: PC) {
    CleanPc(pc) && !pc.Sending? && !pc.Delivering? && (ConnOf(pc).Some? ==> ConnOf(pc).value < n)
  }

  lemma PlainIsOk(s: State, pc: PC)
    requires PlainOk(|s.conns|, pc)
    ensures PcOk(s, pc)
  {
  }

  lemma AfterDispatchOk(n: nat, th: Thread, c: nat, m: Mode, r: Outcome)
    requires c < n
    ensures PlainOk(n, AfterDispatch(th, c, m, r))
  {
  }

  lemma AfterKillOk(n: nat, th: Thread, c: nat, after: After)
    requires c < n && CleanAfter(after)
    ensures PlainOk(n, AfterKill(th, c, after))
  {
    if after.AfterWrite? { AfterDispatchOk(n, th, c, after.mode, Err(WriteFailed)); }
  }

  lemma GatePlain(p: Params, s: State, pc: PC, g: GateAction)
    requires GateEnabled(p, s, pc, g) && PcOk(s, pc) && (s.current.Some? ==> s.current.value < |s.conns|)
    ensures PlainOk(|s.conns|, GatePc(s, pc, g))
  {
    hide SendingOk, DeliveringOk;
  }

  lemma LivePlain(p: Params, s: State, th: Thread, l: LiveAction)
    requires LiveEnabled(s, th.pc, l) && PcOk(s, th.pc) && (s.current.Some? ==> s.current.value < |s.conns|)
    ensures PlainOk(if l.DialSucceeds? then |s.conns| + 1 else |s.conns|, LivePc(p, s, th, l))
  {
    hide SendingOk, DeliveringOk, Handshake.Learned, Frames, Alive, Handshake.Opening;
    if l.DialSucceeds? { OpeningErrIsClean(p); }
  }

  lemma OpeningErrIsClean(p: Params)
    ensures Handshake.Opening(p.hs).Err? ==> Handshake.Opening(p.hs).error == AuthError
  {
  }

  lemma DispatchPlain(s: State, th: Thread, d: DispatchAction)
    requires DispatchEnabled(s, th.pc, d) && PcOk(s, th.pc)
    ensures PlainOk(|s.conns|, DispatchPc(s, th, d))
  {
    hide SendingOk, DeliveringOk, AfterDispatch, Received, Alive;
    match d {
      case RegisterWaiter => AfterDispatchOk(|s.conns|, th, th.pc.c, th.pc.m, Err(WriteFailed));
      case Receive => AfterDispatchOk(|s.conns|, th, th.pc.c, th.pc.m, Received(s.waiters[th.pc.w].chan.value));
      case RemoveOnLeave => AfterDispatchOk(|s.conns|, th, th.pc.c, th.pc.m, Err(th.pc.why));
      case _ =>
    }
  }

  lemma DeliveryPlain(p: Params, s: State, th: Thread, v: DeliveryAction)
    requires DeliveryEnabled(s, th.pc, v) && PcOk(s, th.pc) && !v.PoisonSwap? && !v.PoisonSend?
    requires v.ReadFrame? ==> !Decision(p, s, th.pc.c, v.body).Match?
    ensures PlainOk(|s.conns|, DeliveryPc(p, s, th, v))
  {
    hide SendingOk, DeliveringOk, AfterKill, Codec.DecodeResponseBody;
    if v.PoisonDone? { AfterKillOk(|s.conns|, th, th.pc.c, th.pc.after); }
  }

  /** A poisoner that drained something was the first on its connection. */
  lemma SwapOk(s: State, s': State, pc: PC)
    requires pc.Kill? && PcOk(s, pc) && LinkOk(s.conns[pc.c]) && TablesOk(s) && WaitersGrow(s, s')
    requires |s'.conns| == |s.conns| && s'.conns[pc.c] == PoisonedConn(s.conns[pc.c], pc.e)
    ensures PcOk(s', Sending(pc.c, pc.e, Drained(s.conns[pc.c].table), pc.after))
  {
    var drained := Drained(s.conns[pc.c].table);
    DrainedAreRegistered(s, pc.c);
    forall w | w in drained ensures s'.waiters[w].conn == pc.c {
      assert WaiterGrows(s.waiters[w], s'.waiters[w]);
    }
    assert drained != {} ==> s.conns[pc.c].table.pending != map[];
  }

  lemma SendOk(s: State, s': State, pc: PC, w: nat)
    requires pc.Sending? && PcOk(s, pc) && Grows(s, s') && (forall x | x in pc.drained :: x < |s.waiters|)
    ensures PcOk(s', pc.(drained := pc.drained - {w}))
  {
    PcStaysOk(s, s', pc);
  }

  lemma MatchOk(p: Params, s: State, s': State, c: nat, body: Octets)
    requires c < |s.conns| && TablesOk(s) && Grows(s, s') && Decision(p, s, c, body).Match?
    ensures PcOk(s', AfterBody(c, Decision(p, s, c, body)))
  {
    hide Codec.DecodeResponseBody;
    var a := Decision(p, s, c, body);
    assert PointsToIts(s, c, a.resp.id);
    assert WaiterGrows(s.waiters[a.w], s'.waiters[a.w]);
  }

  // --- every step ---

  lemma LiveLinks(p: Params, s: State, t: nat, l: LiveAction)
    requires LinksOk(s) && At(s, t) && LiveEnabled(s, Pc(s, t), l)
    ensures forall c: nat | c < |LiveConns(p, s, t, l)| :: LinkOk(LiveConns(p, s, t, l)[c])
  {
    hide Frames;
  }

  lemma LinksStep(p: Params, s: State, st: Step, s': State)
    requires LinksOk(s) && Enabled(p, s, st) && s' == Apply(p, s, st)
    ensures LinksOk(s')
  {
    hide ApplyGate, ApplyLive, ApplyDispatch, ApplyDelivery, LiveEnabled, DispatchEnabled, DeliveryEnabled;
    match st {
      case BeginCall(_) =>
      case BeginClose =>
      case Gate(t, g) => GateConns(p, s, t, g);
      case Live(t, l) =>
        LiveLinks(p, s, t, l);
        LiveConnsAgree(p, s, t, l);
      case Dispatch(t, d) => DispatchConns(p, s, t, d);
      case Delivery(t, v) => DeliveryConns(p, s, t, v);
    }
  }

  lemma NothingSent(s: State, s': State)
    requires AllSentOk(s) && Grows(s, s') && s'.waiters == s.waiters
    ensures AllSentOk(s')
  {
    forall w: nat | w < |s'.waiters| ensures SentOk(s', s'.waiters[w]) {
      assert SentOk(s, s.waiters[w]);
      SentStaysOk(s, s', s.waiters[w]);
    }
  }

  lemma DispatchSent(p: Params, s: State, t: nat, d: DispatchAction, s': State)
    requires AllSentOk(s) && At(s, t) && DispatchEnabled(s, Pc(s, t), d) && s' == ApplyDispatch(p, s, t, d) && Grows(s, s')
    ensures AllSentOk(s')
  {
    hide ApplyDispatch, DispatchEnabled, Grows;
    DispatchWaiters(p, s, t, d);
    forall w: nat | w < |s'.waiters| ensures SentOk(s', s'.waiters[w]) {
      if w < |s.waiters| {
        assert SentOk(s, s.waiters[w]);
        SentStaysOk(s, s', s.waiters[w]);
      }
    }
  }

  lemma DeliverySent(p: Params, s: State, t: nat, v: DeliveryAction, s': State)
    requires AllSentOk(s) && At(s, t) && DeliveryEnabled(s, Pc(s, t), v) && s' == ApplyDelivery(p, s, t, v) && Grows(s, s')
    requires PcOk(s, Pc(s, t))
    ensures AllSentOk(s')
  {
    hide ApplyDelivery, Grows;
    DeliveryWaiters(p, s, t, v);
    forall w: nat | w < |s'.waiters| ensures SentOk(s', s'.waiters[w]) {
      var pc := Pc(s, t);
      var x := s.waiters[w].(sends := s.waiters[w].sends + Posts(pc, v, w));
      assert SentOk(s, s.waiters[w]);
      assert SentOk(s, x);
      SentStaysOk(s, s', x);
    }
  }

  lemma SentStep(p: Params, s: State, st: Step, s': State)
    requires ErrorsOk(s) && Enabled(p, s, st) && s' == Apply(p, s, st) && Grows(s, s')
    ensures AllSentOk(s')
  {
    hide ApplyGate, ApplyLive, ApplyDispatch, ApplyDelivery, LiveEnabled, DispatchEnabled, DeliveryEnabled, PcOk, Grows;
    match st {
      case BeginCall(_) => NothingSent(s, s');
      case BeginClose => NothingSent(s, s');
      case Gate(t, g) => GateFields(p, s, t, g); NothingSent(s, s');
      case Live(t, l) => LiveFields(p, s, t, l); NothingSent(s, s');
      case Dispatch(t, d) => DispatchSent(p, s, t, d, s');
      case Delivery(t, v) => DeliverySent(p, s, t, v, s');
    }
  }

  /** The place the moving thread reaches is sound. */
  lemma MoverOk(p: Params, s: State, st: Step, s': State)
    requires ErrorsOk(s) && WaitersOk(s) && Enabled(p, s, st) && s' == Apply(p, s, st) && Grows(s, s')
    requires !st.BeginCall? && !st.BeginClose?
    ensures PcOk(s', Moved(p, s, st).pc)
  {
    hide ApplyGate, ApplyLive, ApplyDispatch, ApplyDelivery, GatePc, LivePc, DispatchPc, WaitersGrow;
    assert PcOk(s, Pc(s, st.t));
    match st {
      case Gate(t, g) =>
        GatePlain(p, s, Pc(s, t), g);
        PlainIsOk(s', GatePc(s, Pc(s, t), g));
      case Live(t, l) =>
        LivePlain(p, s, s.threads[t], l);
        if l.DialSucceeds? { LiveConnsAgree(p, s, t, l); }
        PlainIsOk(s', LivePc(p, s, s.threads[t], l));
      case Dispatch(t, d) =>
        DispatchPlain(s, s.threads[t], d);
        PlainIsOk(s', DispatchPc(s, s.threads[t], d));
      case Delivery(t, v) => DeliveryMoverOk(p, s, t, v, s');
    }
  }

  lemma DeliveryMoverOk(p: Params, s: State, t: nat, v: DeliveryAction, s': State)
    requires ErrorsOk(s) && WaitersOk(s) && At(s, t) && DeliveryEnabled(s, Pc(s, t), v) && s' == ApplyDelivery(p, s, t, v)
    requires Grows(s, s')
    ensures PcOk(s', DeliveryPc(p, s, s.threads[t], v))
  {
    hide ApplyDelivery, OnBody, AfterKill, PlainOk, PoisonedConn, Drained;
    var pc := Pc(s, t);
    assert PcOk(s, pc) && ThreadOk(s, t);
    DeliveryConns(p, s, t, v);
    match v {
      case PoisonSwap => SwapOk(s, s', pc);
      case PoisonSend(w) => SendOk(s, s', pc, w);
      case ReadFrame(body) =>
        if Decision(p, s, pc.c, body).Match? { MatchOk(p, s, s', pc.c, body); }
        else { DeliveryPlain(p, s, s.threads[t], v); PlainIsOk(s', DeliveryPc(p, s, s.threads[t], v)); }
      case _ => DeliveryPlain(p, s, s.threads[t], v); PlainIsOk(s', DeliveryPc(p, s, s.threads[t], v));
    }
  }

  lemma ErrorsStep(p: Params, s: State, st: Step, s': State)
    requires ErrorsOk(s) && WaitersOk(s) && Enabled(p, s, st) && s' == Apply(p, s, st)
    ensures ErrorsOk(s')
  {
    hide ApplyGate, ApplyLive, ApplyDispatch, ApplyDelivery, PcOk, SentOk, LinkOk, Enabled, Apply, Moved;
    StepGrows(p, s, st, s');
    StepThreads(p, s, st, s');
    LinksStep(p, s, st, s');
    SentStep(p, s, st, s');
    StepFields(p, s, st, s');
    assert s'.current.Some? ==> s'.current.value < |s'.conns| by {
      if st.Live? && st.l.InstallConn? { InstallOk(p, s, st); }
    }
    forall t: nat | t < |s'.threads| ensures PcOk(s', Pc(s', t)) {
      if !st.BeginCall? && !st.BeginClose? && t == st.t {
        MoverOk(p, s, st, s');
      } else if t < |s.threads| {
        assert PcOk(s, Pc(s, t)) && ThreadOk(s, t);
        PcStaysOk(s, s', Pc(s, t));
      } else { NewOk(p, s, st, s', t); }
    }
  }

  lemma InstallOk(p: Params, s: State, st: Step)
    requires ErrorsOk(s) && Enabled(p, s, st) && st.Live? && st.l.InstallConn?
    ensures Pc(s, st.t).Install? && Pc(s, st.t).c < |s.conns|
  {
    assert PcOk(s, Pc(s, st.t));
  }

  lemma NewOk(p: Params, s: State, st: Step, s': State, t: nat)
    requires Enabled(p, s, st) && s' == Apply(p, s, st) && |s.threads| <= t < |s'.threads|
    ensures PcOk(s', Pc(s', t))
  {
    hide ApplyGate, ApplyLive, ApplyDispatch, ApplyDelivery, Moved;
    StepThreads(p, s, st, s');
    if st.Live? && st.l.DialSucceeds? { LiveConnsAgree(p, s, st.t, st.l); }
  }

  lemma InitErrorsOk()
    ensures ErrorsOk(Init())
  {
  }
}
