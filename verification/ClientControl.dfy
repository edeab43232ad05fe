/**
 The control flow of every thread, and which field each step may change:
 the transition system read field by field.
 */
module ClientControl {
  import opened Wrappers
  import opened MsgPack
  import opened Values
  import opened ConnTable
  import opened Client
  import Handshake
  import Ids

  // --- the thread that moves ---

  /** The moving thread after its step, history included. */
  function Moved(p: Params, s: State, st: Step): Thread
    requires Enabled(p, s, st) && !st.BeginCall? && !st.BeginClose?
  {
    match st
    case Gate(t, g) => s.threads[t].(pc := GatePc(s, Pc(s, t), g))
    case Live(t, l) => LiveThread(p, s, s.threads[t], l)
    case Dispatch(t, d) => DispatchThread(s, s.threads[t], d)
    case Delivery(t, v) => s.threads[t].(pc := DeliveryPc(p, s, s.threads[t], v))
  }

  lemma GateThreads(p: Params, s: State, t: nat, g: GateAction)
    requires At(s, t) && GateEnabled(p, s, Pc(s, t), g)
    ensures ApplyGate(p, s, t, g).threads == s.threads[t := s.threads[t].(pc := GatePc(s, Pc(s, t), g))]
  {
  }

  lemma LiveThreads(p: Params, s: State, t: nat, l: LiveAction)
    requires At(s, t) && LiveEnabled(s, Pc(s, t), l)
    ensures ApplyLive(p, s, t, l).threads
      == s.threads[t := LiveThread(p, s, s.threads[t], l)] + (if l.DialSucceeds? then [NewReader(|s.conns|)] else [])
  {
    hide Alive, AfterFailedEstablish, Frames, Handshake.Learned, Handshake.Opening;
  }

  lemma RegisterThreads(s: State, t: nat)
    requires At(s, t) && Pc(s, t).Register?
    ensures DoRegister(s, t).threads == s.threads[t := DispatchThread(s, s.threads[t], RegisterWaiter)]
  {
    hide AfterDispatch, Removed;
  }

  lemma DispatchThreads(p: Params, s: State, t: nat, d: DispatchAction)
    requires At(s, t) && DispatchEnabled(s, Pc(s, t), d)
    ensures ApplyDispatch(p, s, t, d).threads == s.threads[t := DispatchThread(s, s.threads[t], d)]
  {
    hide AfterDispatch, Received, RequestOf, Removed, DoRegister;
    if d.RegisterWaiter? { RegisterThreads(s, t); }
  }

  lemma ActThreads(s: State, t: nat, a: Action)
    requires At(s, t) && Pc(s, t).Reading?
    ensures Act(s, t, a).threads == s.threads[t := s.threads[t].(pc := AfterBody(Pc(s, t).c, a))]
  {
  }

  lemma DeliveryThreads(p: Params, s: State, t: nat, v: DeliveryAction)
    requires At(s, t) && DeliveryEnabled(s, Pc(s, t), v)
    ensures ApplyDelivery(p, s, t, v).threads == s.threads[t := s.threads[t].(pc := DeliveryPc(p, s, s.threads[t], v))]
  {
    hide AfterKill, OnBody, Drained, HoldAll, Act, AfterBody;
    if v.ReadFrame? { ActThreads(s, t, Decision(p, s, Pc(s, t).c, v.body)); }
  }

  /** Every step moves its own thread and no other; only a dial, a call and a
      close start a thread. */
  lemma StepThreads(p: Params, s: State, st: Step, s': State)
    requires Enabled(p, s, st) && s' == Apply(p, s, st)
    ensures st.BeginCall? ==> s'.threads == s.threads + [NewCaller(s, st.cmd)]
    ensures st.BeginClose? ==> s'.threads == s.threads + [NEW_CLOSER]
    ensures !st.BeginCall? && !st.BeginClose? ==>
      st.t < |s.threads|
      && s'.threads == s.threads[st.t := Moved(p, s, st)]
        + (if st.Live? && st.l.DialSucceeds? then [NewReader(|s.conns|)] else [])
  {
    hide ApplyGate, ApplyLive, ApplyDispatch, ApplyDelivery, GatePc, LiveThread, DispatchThread, DeliveryPc;
    match st {
      case BeginCall(_) =>
      case BeginClose =>
      case Gate(t, g) => GateThreads(p, s, t, g);
      case Live(t, l) => LiveThreads(p, s, t, l);
      case Dispatch(t, d) => DispatchThreads(p, s, t, d);
      case Delivery(t, v) => DeliveryThreads(p, s, t, v);
    }
  }

  // --- what happens to the connections ---

  /** Only the pending table and the written frames differ, and a dead table gains nothing. */
  predicate SameLink(a: Conn, b: Conn) {
    && b == a.(table := b.table, written := b.written) && b.table.alive == a.table.alive
    && (!a.table.alive ==> b.table.pending.Keys <= a.table.pending.Keys)
  }

  lemma GateConns(p: Params, s: State, t: nat, g: GateAction)
    requires At(s, t) && GateEnabled(p, s, Pc(s, t), g)
    ensures ApplyGate(p, s, t, g).conns == s.conns
  {
  }

  lemma LiveConnsAgree(p: Params, s: State, t: nat, l: LiveAction)
    requires At(s, t) && LiveEnabled(s, Pc(s, t), l)
    ensures ApplyLive(p, s, t, l).conns == LiveConns(p, s, t, l)
  {
    hide Alive, AfterFailedEstablish, Frames, Handshake.Learned, Handshake.Opening;
  }

  lemma ForgetConns(s: State, c: nat, id: u32)
    ensures var s' := Forget(s, c, id);
      |s'.conns| == |s.conns|
      && forall d: nat | d < |s.conns| :: SameLink(s.conns[d], s'.conns[d]) && s'.conns[d].written == s.conns[d].written
  {
  }

  lemma RegisterConns(s: State, t: nat)
    requires At(s, t) && Pc(s, t).Register?
    ensures var s' := DoRegister(s, t);
      |s'.conns| == |s.conns|
      && forall c: nat | c < |s.conns| :: SameLink(s.conns[c], s'.conns[c]) && s'.conns[c].written == s.conns[c].written
  {
    hide Forget, AfterDispatch;
    ForgetConns(s, Pc(s, t).c, Pc(s, t).id);
  }

  /** The frame a dispatch step puts on connection c. */
  function Adds(p: Params, s: State, t: nat, d: DispatchAction, c: nat): seq<Written>
    requires At(s, t) && DispatchEnabled(s, Pc(s, t), d)
  {
    if d.WriteSucceeds? && Pc(s, t).c == c then [Written(Pc(s, t).m, t, RequestOf(p, s, t))] else []
  }

  lemma DispatchConns(p: Params, s: State, t: nat, d: DispatchAction)
    requires At(s, t) && DispatchEnabled(s, Pc(s, t), d)
    ensures var s' := ApplyDispatch(p, s, t, d);
      |s'.conns| == |s.conns|
      && (forall c: nat | c < |s.conns| ::
           SameLink(s.conns[c], s'.conns[c]) && s'.conns[c].written == s.conns[c].written + Adds(p, s, t, d, c))
  {
    hide AfterDispatch, Received, RequestOf, Forget, DoRegister;
    match d {
      case RegisterWaiter => RegisterConns(s, t);
      case RemoveAfterWrite => if Pc(s, t).w < |s.waiters| { ForgetConns(s, Pc(s, t).c, s.waiters[Pc(s, t).w].id); }
      case RemoveOnLeave => if Pc(s, t).w < |s.waiters| { ForgetConns(s, Pc(s, t).c, s.waiters[Pc(s, t).w].id); }
      case _ =>
    }
  }

  lemma SwapConns(s: State, t: nat)
    requires At(s, t) && Pc(s, t).Kill?
    ensures var s', pc := DoPoisonSwap(s, t), Pc(s, t);
      s'.conns == if pc.c < |s.conns| then s.conns[pc.c := PoisonedConn(s.conns[pc.c], pc.e)] else s.conns
  {
    hide HoldAll, Drained;
  }

  lemma MatchConns(s: State, t: nat, w: nat, resp: Response)
    requires At(s, t) && Pc(s, t).Reading?
    ensures var s', c := Act(s, t, Match(w, resp)), Pc(s, t).c;
      && s'.conns == (if c < |s.conns| then s.conns[c := s.conns[c].(table := Removed(s.conns[c].table, resp.id))] else s.conns)
      && s'.waiters == WithPlace(s, w, Held(t)).waiters
  {
    hide Removed;
  }

  lemma ActConns(s: State, t: nat, a: Action)
    requires At(s, t) && Pc(s, t).Reading?
    ensures var s' := Act(s, t, a);
      |s'.conns| == |s.conns|
      && (forall c: nat | c < |s.conns| :: SameLink(s.conns[c], s'.conns[c]) && s'.conns[c].written == s.conns[c].written)
      && |s'.waiters| == |s.waiters|
      && (forall w: nat | w < |s.waiters| :: SameWaiter(s.waiters[w], s'.waiters[w]))
  {
    if a.Match? {
      MatchConns(s, t, a.w, a.resp);
      hide Act;
    } else {
      hide AfterBody;
    }
  }

  lemma DeliveryConns(p: Params, s: State, t: nat, v: DeliveryAction)
    requires At(s, t) && DeliveryEnabled(s, Pc(s, t), v)
    ensures var s' := ApplyDelivery(p, s, t, v);
      |s'.conns| == |s.conns|
      && (forall c: nat | c < |s.conns| ::
           if v.PoisonSwap? && Pc(s, t).c == c then s'.conns[c] == PoisonedConn(s.conns[c], Pc(s, t).e)
           else SameLink(s.conns[c], s'.conns[c]) && s'.conns[c].written == s.conns[c].written)
  {
    hide AfterKill, OnBody, PoisonedConn, DoPoisonSwap, Act, SameWaiter;
    match v {
      case PoisonSwap => SwapConns(s, t);
      case ReadFrame(body) => ActConns(s, t, Decision(p, s, Pc(s, t).c, body));
      case _ =>
    }
  }

  /** What a step does to a connection, apart from its pending table. */
  function Fate(p: Params, s: State, st: Step, c: nat): Conn
    requires c < |s.conns| && Enabled(p, s, st)
  {
    var x := s.conns[c];
    match st
    case Live(t, l) => LiveConns(p, s, t, l)[c]
    case Dispatch(t, d) => x.(written := x.written + Adds(p, s, t, d, c))
    case Delivery(t, PoisonSwap) => if Pc(s, t).c == c then PoisonedConn(x, Pc(s, t).e) else x
    case _ => x
  }

  lemma StepConns(p: Params, s: State, st: Step, s': State)
    requires Enabled(p, s, st) && s' == Apply(p, s, st)
    ensures |s'.conns| == |s.conns| + (if st.Live? && st.l.DialSucceeds? then 1 else 0)
    ensures st.Live? && st.l.DialSucceeds? ==> s'.conns[|s.conns|] == Conn(FRESH, st.t, None, [], false, None, None)
    ensures forall c: nat | c < |s.conns| :: FateIs(p, s, st, s', c)
  {
    hide ApplyGate, ApplyLive, ApplyDispatch, ApplyDelivery, DispatchEnabled, DeliveryEnabled, Adds, PoisonedConn, Frames;
    match st {
      case BeginCall(_) =>
      case BeginClose =>
      case Gate(t, g) => GateConns(p, s, t, g);
      case Live(t, l) => LiveConnsAgree(p, s, t, l);
      case Dispatch(t, d) => DispatchConns(p, s, t, d);
      case Delivery(t, v) => DeliveryConns(p, s, t, v);
    }
  }

  predicate FateIs(p: Params, s: State, st: Step, s': State, c: nat)
    requires c < |s.conns| && Enabled(p, s, st) && c < |s'.conns|
  {
    var x := Fate(p, s, st, c);
    s'.conns[c] == x.(table := s'.conns[c].table) && s'.conns[c].table.alive == x.table.alive
  }

  // --- what happens to the waiters ---

  /** Nothing is sent to the waiter and it keeps its identity. */
  predicate SameWaiter(a: Waiter, b: Waiter) {
    b == a.(chan := b.chan, place := b.place)
  }

  lemma ForgetWaiters(s: State, c: nat, id: u32)
    ensures var s' := Forget(s, c, id);
      |s'.waiters| == |s.waiters| && (forall w: nat | w < |s.waiters| :: SameWaiter(s.waiters[w], s'.waiters[w]))
  {
  }

  lemma RegisterWaiters(s: State, t: nat)
    requires At(s, t) && Pc(s, t).Register?
    ensures var s', pc := DoRegister(s, t), Pc(s, t);
      && |s'.waiters| == |s.waiters| + (if Alive(s, pc.c) then 1 else 0)
      && (forall w: nat | w < |s.waiters| :: SameWaiter(s.waiters[w], s'.waiters[w]))
      && (Alive(s, pc.c) ==> s'.waiters[|s.waiters|] == Waiter(pc.c, pc.id, pc.no, t, None, [], InTable))
  {
    hide Forget, AfterDispatch;
    ForgetWaiters(s, Pc(s, t).c, Pc(s, t).id);
  }

  lemma DispatchWaiters(p: Params, s: State, t: nat, d: DispatchAction)
    requires At(s, t) && DispatchEnabled(s, Pc(s, t), d)
    ensures var s', pc := ApplyDispatch(p, s, t, d), Pc(s, t);
      && |s'.waiters| == |s.waiters| + (if d.RegisterWaiter? && Alive(s, pc.c) then 1 else 0)
      && (forall w: nat | w < |s.waiters| :: SameWaiter(s.waiters[w], s'.waiters[w]))
      && (d.RegisterWaiter? && Alive(s, pc.c) ==>
            s'.waiters[|s.waiters|] == Waiter(pc.c, pc.id, pc.no, t, None, [], InTable))
  {
    hide AfterDispatch, Received, RequestOf, Forget, DoRegister;
    match d {
      case RegisterWaiter => RegisterWaiters(s, t);
      case RemoveAfterWrite => if Pc(s, t).w < |s.waiters| { ForgetWaiters(s, Pc(s, t).c, s.waiters[Pc(s, t).w].id); }
      case RemoveOnLeave => if Pc(s, t).w < |s.waiters| { ForgetWaiters(s, Pc(s, t).c, s.waiters[Pc(s, t).w].id); }
      case _ =>
    }
  }

  /** What a delivery step sends, and to whom. */
  function Posts(pc: PC, v: DeliveryAction, w: nat): seq<Message> {
    if v.PoisonSend? && v.w == w && pc.Sending? then [Failed(pc.e)]
    else if v.DeliverResponse? && pc.Delivering? && pc.w == w then [Got(pc.resp, pc.c)]
    else []
  }

  lemma DeliveryWaiters(p: Params, s: State, t: nat, v: DeliveryAction)
    requires At(s, t) && DeliveryEnabled(s, Pc(s, t), v)
    ensures var s', pc := ApplyDelivery(p, s, t, v), Pc(s, t);
      && |s'.waiters| == |s.waiters|
      && (forall w: nat | w < |s.waiters| ::
            SameWaiter(s.waiters[w].(sends := s.waiters[w].sends + Posts(pc, v, w)), s'.waiters[w]))
  {
    hide AfterKill, OnBody, Poisoned, Drained, Act, SameLink;
    match v {
      case ReadFrame(body) => ActConns(s, t, Decision(p, s, Pc(s, t).c, body));
      case _ =>
    }
  }

  // --- the client's own fields ---

  /** The fields of the client beside connections, waiters and threads. */
  lemma StepFields(p: Params, s: State, st: Step, s': State)
    requires Enabled(p, s, st) && s' == Apply(p, s, st)
    ensures s'.current == (
      if st.Gate? && st.g.TakeConn? then None
      else if st.Live? && st.l.InstallConn? then Some(Pc(s, st.t).c)
      else s.current)
    ensures s'.redialer == (
      if st.Live? && st.l.Lock? then Some(st.t)
      else if st.Live? && st.l.UnlockRedial? then None
      else s.redialer)
    ensures s'.info == (if st.Live? && st.l.StoreInfo? then Pc(s, st.t).learned else s.info)
    ensures s'.closed == (s.closed || st.BeginClose?)
    ensures s'.gateClosed == (s.gateClosed || (st.Gate? && st.g.ShutGate?))
    ensures s'.permits == (
      if st.Gate? && st.g.AcqTake? then s.permits + 1
      else if st.Gate? && (st.g.AcqGiveBack? || st.g.ReleasePermit?) then s.permits - 1
      else s.permits)
  {
    match st {
      case BeginCall(_) =>
      case BeginClose =>
      case Gate(t, g) => hide ApplyLive, ApplyDispatch, ApplyDelivery;
      case Live(t, l) => LiveFields(p, s, t, l); hide ApplyGate, ApplyLive, ApplyDispatch, ApplyDelivery;
      case Dispatch(t, d) => DispatchFields(p, s, t, d); hide ApplyGate, ApplyLive, ApplyDispatch, ApplyDelivery;
      case Delivery(t, v) => DeliveryFields(p, s, t, v); hide ApplyGate, ApplyLive, ApplyDispatch, ApplyDelivery;
    }
  }

  lemma GateFields(p: Params, s: State, t: nat, g: GateAction)
    requires At(s, t) && GateEnabled(p, s, Pc(s, t), g)
    ensures var s' := ApplyGate(p, s, t, g);
      s' == s.(threads := s'.threads, permits := s'.permits, gateClosed := s'.gateClosed, current := s'.current)
  {
  }

  lemma LiveFields(p: Params, s: State, t: nat, l: LiveAction)
    requires At(s, t) && LiveEnabled(s, Pc(s, t), l)
    ensures var s' := ApplyLive(p, s, t, l);
      && s'.current == (if l.InstallConn? then Some(Pc(s, t).c) else s.current)
      && s'.redialer == (if l.Lock? then Some(t) else if l.UnlockRedial? then None else s.redialer)
      && s'.info == (if l.StoreInfo? then Pc(s, t).learned else s.info)
      && s'.installed == s.installed + (if l.InstallConn? then [Pc(s, t).c] else [])
      && s'.dials == s.dials + (if l.SpendBudget? && s.threads[t].budget > 0 then 1 else 0)
      && (s'.closed, s'.gateClosed, s'.permits, s'.waiters) == (s.closed, s.gateClosed, s.permits, s.waiters)
      && (s'.nextID, s'.allocs, s'.begun) == (s.nextID, s.allocs, s.begun)
      && (s'.decoded, s'.taken, s'.drops) == (s.decoded, s.taken, s.drops)
  {
    hide Alive, AfterFailedEstablish, Frames, Handshake.Learned, Handshake.Opening;
  }

  lemma RegisterFields(s: State, t: nat)
    requires At(s, t) && Pc(s, t).Register?
    ensures var s' := DoRegister(s, t);
      s' == s.(conns := s'.conns, waiters := s'.waiters, threads := s'.threads)
  {
    hide AfterDispatch, Removed;
  }

  /** Dispatching touches none of the client's fields but the id counter. */
  lemma DispatchFields(p: Params, s: State, t: nat, d: DispatchAction)
    requires At(s, t) && DispatchEnabled(s, Pc(s, t), d)
    ensures var s' := ApplyDispatch(p, s, t, d);
      && s' == s.(conns := s'.conns, waiters := s'.waiters, threads := s'.threads, nextID := s'.nextID, allocs := s'.allocs)
      && s'.allocs == s.allocs + (if d.AllocId? then [t] else [])
      && s'.nextID == (if d.AllocId? then Ids.Alloc(s.nextID).1 else s.nextID)
  {
    hide AfterDispatch, Received, RequestOf, Removed, DoRegister;
    if d.RegisterWaiter? { RegisterFields(s, t); }
  }

  lemma DeliveryFields(p: Params, s: State, t: nat, v: DeliveryAction)
    requires At(s, t) && DeliveryEnabled(s, Pc(s, t), v)
    ensures var s' := ApplyDelivery(p, s, t, v);
      && s' == s.(conns := s'.conns, waiters := s'.waiters, threads := s'.threads,
                  decoded := s'.decoded, taken := s'.taken, drops := s'.drops)
      && s'.drops == s.drops + (if v.CountDrop? then 1 else 0)
      && s'.taken == s.taken + (if v.ReadFrame? && Decision(p, s, Pc(s, t).c, v.body).Match? then 1 else 0)
      && s'.decoded == s.decoded
        + (if v.ReadFrame? && !Decision(p, s, Pc(s, t).c, v.body).Refuse?
              && !Decision(p, s, Pc(s, t).c, v.body).Push? then 1 else 0)
  {
    hide AfterKill, OnBody, Drained, HoldAll, Removed;
  }
}
