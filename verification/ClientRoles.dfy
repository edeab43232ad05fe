/** Who runs which code, who holds the re-dial lock, and what Close shuts. */
module ClientRoles {
  import opened Wrappers
  import opened ClientTypes
  import opened Client
  import opened ClientControl
  import Handshake

  /** What a kill on the way into or out of the handshake belongs to. */
  predicate AfterRedials(after: After) {
    after.AfterGreeting? || (after.AfterWrite? && after.mode.Opening?)
  }

  /** The code between taking and releasing the re-dial lock. */
  predicate HoldsLock(pc: PC) {
    match pc
    case Recheck => true
    case ReRead => true
    case ReCheckAlive(_) => true
    case Redial(_) => true
    case Dialing => true
    case Greeting(_, _, _) => true
    case SetInfo(_, _) => true
    case Install(_) => true
    case Unlock(_) => true
    case Alloc(_, m) => m.Opening?
    case Register(_, m, _, _) => m.Opening?
    case Writing(_, m, _) => m.Opening?
    case Unregister(_, m, _) => m.Opening?
    case Awaiting(_, m, _) => m.Opening?
    case Leaving(_, m, _, _) => m.Opening?
    case Kill(_, _, after) => AfterRedials(after)
    case Sending(_, _, _, after) => AfterRedials(after)
    case _ => false
  }

  predicate IsReading(pc: PC) {
    pc.Reading? || pc.Delivering? || pc.Dropping? || ((pc.Kill? || pc.Sending?) && pc.after == AfterReading)
  }

  predicate IsClosing(pc: PC) {
    pc.CloseGate? || pc.CloseTake? || ((pc.Kill? || pc.Sending?) && pc.after == AfterClosing)
  }

  predicate Suits(kind: Client.Kind, pc: PC) {
    match kind
    case Connector => HoldsLock(pc) || pc.Done?
    case Caller => !IsReading(pc) && !IsClosing(pc)
    case Closer => IsClosing(pc) || pc.Done?
    case Reader => IsReading(pc) || pc.Done?
  }

  /** A call begun after the gate closed has failed at once and touched nothing. */
  predicate LateOk(th: Thread) {
    th.late ==> th.kind == Caller && th.pc == Done(Err(ConnectionClosed)) && th.tried == [] && th.writes == 0
  }

  ghost predicate RoleOk(s: State, t: nat)
    requires At(s, t)
  {
    var th := s.threads[t];
    && Suits(th.kind, th.pc) && LateOk(th)
    && (th.kind == Connector <==> t == 0)
    && (th.kind == Caller || th.kind == Closer ==> ConnectReturned(s))
    && (th.kind == Closer ==> s.closed && (th.pc.CloseGate? || s.gateClosed))
    && (HoldsLock(th.pc) ==> s.redialer == Some(t))
  }

  ghost predicate RolesOk(s: State) {
    && |s.threads| > 0
    && (forall t: nat | t < |s.threads| :: RoleOk(s, t))
    && (s.redialer.Some? ==> At(s, s.redialer.value) && HoldsLock(Pc(s, s.redialer.value)))
    && (s.gateClosed ==> s.closed) && (s.closed ==> ConnectReturned(s))
  }

  // --- one step of control flow ---

  predicate Locks(st: Step) { st.Live? && st.l.Lock? }

  predicate Unlocks(st: Step) { st.Live? && st.l.UnlockRedial? }

  lemma GateSuits(p: Params, s: State, th: Thread, g: GateAction)
    requires GateEnabled(p, s, th.pc, g) && Suits(th.kind, th.pc)
    ensures Suits(th.kind, GatePc(s, th.pc, g)) && !HoldsLock(th.pc) && !HoldsLock(GatePc(s, th.pc, g))
    ensures th.kind == Closer ==> g.ShutGate? || g.TakeConn?
    ensures g.ShutGate? ==> th.kind == Closer
  {
  }

  lemma LiveSuits(p: Params, s: State, th: Thread, l: LiveAction)
    requires LiveEnabled(s, th.pc, l) && Suits(th.kind, th.pc)
    ensures Suits(th.kind, LivePc(p, s, th, l)) && th.kind != Closer
    ensures HoldsLock(LivePc(p, s, th, l)) <==> (HoldsLock(th.pc) && !l.UnlockRedial?) || l.Lock?
    ensures l.UnlockRedial? ==> HoldsLock(th.pc)
  {
    hide Alive, Frames, Handshake.Opening, Handshake.Learned;
  }

  lemma AfterDispatchSuits(th: Thread, c: nat, m: Mode, r: Outcome)
    ensures HoldsLock(AfterDispatch(th, c, m, r)) <==> m.Opening?
    ensures !IsReading(AfterDispatch(th, c, m, r)) && !IsClosing(AfterDispatch(th, c, m, r))
  {
  }

  lemma DispatchSuits(s: State, th: Thread, d: DispatchAction)
    requires DispatchEnabled(s, th.pc, d) && Suits(th.kind, th.pc)
    ensures Suits(th.kind, DispatchPc(s, th, d)) && th.kind != Closer
    ensures HoldsLock(DispatchPc(s, th, d)) <==> HoldsLock(th.pc)
  {
    hide Alive, AfterDispatch, Received;
    match d {
      case RegisterWaiter => AfterDispatchSuits(th, th.pc.c, th.pc.m, Err(WriteFailed));
      case Receive => AfterDispatchSuits(th, th.pc.c, th.pc.m, Received(s.waiters[th.pc.w].chan.value));
      case RemoveOnLeave => AfterDispatchSuits(th, th.pc.c, th.pc.m, Err(th.pc.why));
      case _ =>
    }
  }

  lemma DeliverySuits(p: Params, s: State, th: Thread, v: DeliveryAction)
    requires DeliveryEnabled(s, th.pc, v) && Suits(th.kind, th.pc)
    ensures Suits(th.kind, DeliveryPc(p, s, th, v)) && (th.kind == Closer ==> !DeliveryPc(p, s, th, v).CloseGate?)
    ensures HoldsLock(DeliveryPc(p, s, th, v)) <==> HoldsLock(th.pc)
  {
    hide OnBody, AfterDispatch;
    if v.PoisonDone? && th.pc.after.AfterWrite? {
      AfterDispatchSuits(th, th.pc.c, th.pc.after.mode, Err(WriteFailed));
    }
  }

  lemma MoverSuits(p: Params, s: State, st: Step)
    requires Enabled(p, s, st) && !st.BeginCall? && !st.BeginClose? && Suits(s.threads[st.t].kind, Pc(s, st.t))
    ensures var pc, pc' := Pc(s, st.t), Moved(p, s, st).pc;
      && Suits(s.threads[st.t].kind, pc')
      && (HoldsLock(pc') <==> (HoldsLock(pc) && !Unlocks(st)) || Locks(st))
      && (Unlocks(st) ==> HoldsLock(pc))
      && (Locks(st) ==> s.redialer == None)
  {
    hide GatePc, LivePc, DispatchPc, DeliveryPc, HoldsLock, Suits;
    var th := s.threads[st.t];
    match st {
      case Gate(t, g) => GateSuits(p, s, th, g);
      case Live(t, l) => LiveSuits(p, s, th, l);
      case Dispatch(t, d) => DispatchSuits(s, th, d);
      case Delivery(t, v) => DeliverySuits(p, s, th, v);
    }
  }

  /** What a step never changes about its thread, and who moves on from Close. */
  lemma MoverKeeps(p: Params, s: State, st: Step, s': State)
    requires Enabled(p, s, st) && !st.BeginCall? && !st.BeginClose?
    requires RoleOk(s, st.t) && (s.gateClosed ==> s'.gateClosed)
    requires s'.gateClosed == (s.gateClosed || (st.Gate? && st.g.ShutGate?))
    ensures var th, th' := s.threads[st.t], Moved(p, s, st);
      && th'.kind == th.kind && th'.late == th.late && !th.pc.Done?
      && (th.kind == Closer ==> th'.pc.CloseGate? || s'.gateClosed)
      && (st.Gate? && st.g.ShutGate? ==> th.kind == Closer)
  {
    hide LivePc, DispatchPc, DeliveryPc, HoldsLock, Suits;
    var th := s.threads[st.t];
    match st {
      case Gate(t, g) => GateSuits(p, s, th, g);
      case Live(t, l) => LiveSuits(p, s, th, l);
      case Dispatch(t, d) => DispatchSuits(s, th, d);
      case Delivery(t, v) => DeliverySuits(p, s, th, v);
    }
  }

  // --- every step ---

  lemma ConnectStaysReturned(p: Params, s: State, st: Step, s': State)
    requires Enabled(p, s, st) && s' == Apply(p, s, st) && |s.threads| > 0 && RoleOk(s, 0)
    ensures |s'.threads| > 0 && (ConnectReturned(s) ==> ConnectReturned(s'))
  {
    hide Apply, Moved, Suits, HoldsLock;
    StepThreads(p, s, st, s');
  }

  lemma RolesStep(p: Params, s: State, st: Step, s': State)
    requires RolesOk(s) && Enabled(p, s, st) && s' == Apply(p, s, st)
    ensures RolesOk(s')
  {
    hide Apply, Enabled, Moved, Suits, HoldsLock, LateOk;
    assert RoleOk(s, 0);
    StepThreads(p, s, st, s');
    StepFields(p, s, st, s');
    ConnectStaysReturned(p, s, st, s');
    if st.BeginCall? || st.BeginClose? {
      StartRoles(p, s, st, s');
    } else {
      assert RoleOk(s, st.t);
      MoverSuits(p, s, st);
      MoverKeeps(p, s, st, s');
      forall t: nat | t < |s'.threads| ensures RoleOk(s', t) {
        if t < |s.threads| {
          assert RoleOk(s, t);
          if t == st.t { assert LateOk(Moved(p, s, st)) by { LateStays(p, s, st); } }
        } else { NewReaderSuits(|s.conns|); }
      }
    }
  }

  lemma LateStays(p: Params, s: State, st: Step)
    requires Enabled(p, s, st) && !st.BeginCall? && !st.BeginClose? && LateOk(s.threads[st.t])
    ensures LateOk(Moved(p, s, st))
  {
    hide GatePc, LivePc, DispatchPc, DeliveryPc;
  }

  lemma NewReaderSuits(c: nat)
    ensures Suits(Reader, Reading(c)) && !HoldsLock(Reading(c)) && LateOk(NewReader(c))
  {
  }

  lemma StartRoles(p: Params, s: State, st: Step, s': State)
    requires RolesOk(s) && (st.BeginCall? || st.BeginClose?) && Enabled(p, s, st) && s' == Apply(p, s, st)
    ensures RolesOk(s')
  {
    hide ApplyGate, ApplyLive, ApplyDispatch, ApplyDelivery, GateEnabled, LiveEnabled, DispatchEnabled, DeliveryEnabled;
    StartsSuit(s, if st.BeginCall? then st.cmd else Command([], []));
    hide Suits, HoldsLock, LateOk, NewCaller;
    assert RoleOk(s, 0);
    forall t: nat | t < |s'.threads| ensures RoleOk(s', t) {
      if t < |s.threads| { assert RoleOk(s, t); }
    }
  }

  lemma StartsSuit(s: State, cmd: Command)
    ensures Suits(Caller, NewCaller(s, cmd).pc) && !HoldsLock(NewCaller(s, cmd).pc) && LateOk(NewCaller(s, cmd))
    ensures NewCaller(s, cmd).kind == Caller
    ensures Suits(Closer, CloseGate) && !HoldsLock(CloseGate) && LateOk(NEW_CLOSER)
  {
  }

  lemma InitRolesOk()
    ensures RolesOk(Init())
  {
  }
}
