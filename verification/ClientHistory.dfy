/** What only ever grows, and which threads a step leaves alone. */
module ClientHistory {
  import opened MsgPack
  import opened Values
  import opened ConnTable
  import opened Client

  ghost predicate ConnGrows(a: Conn, b: Conn) {
    && (a.table.alive || !b.table.alive)
    && (a.error.Some? ==> b.error == a.error)
    && (a.greeted ==> b.greeted)
    && (a.ordinal.Some? ==> b.ordinal == a.ordinal || b.ordinal.Some?)
    && b.opener == a.opener
    && a.written <= b.written
  }

  ghost predicate WaiterGrows(a: Waiter, b: Waiter) {
    b.conn == a.conn && b.id == a.id && b.no == a.no && b.owner == a.owner && a.sends <= b.sends
  }

  ghost predicate ThreadGrows(a: Thread, b: Thread) {
    && b.kind == a.kind && b.cmd == a.cmd && b.base == a.base && b.late == a.late
    && a.tried <= b.tried && a.writes <= b.writes && a.establishes <= b.establishes
  }

  ghost predicate ConnsGrow(s: State, s': State) {
    |s.conns| <= |s'.conns| && forall c: nat | c < |s.conns| :: ConnGrows(s.conns[c], s'.conns[c])
  }

  ghost predicate WaitersGrow(s: State, s': State) {
    |s.waiters| <= |s'.waiters| && forall w: nat | w < |s.waiters| :: WaiterGrows(s.waiters[w], s'.waiters[w])
  }

  /** Only thread t changes, and at most one thread is added. */
  ghost predicate OnlyMoves(s: State, s': State, t: nat) {
    && At(s, t) && |s.threads| <= |s'.threads| <= |s.threads| + 1
    && (forall u: nat | u < |s.threads| && u != t :: s'.threads[u] == s.threads[u])
    && ThreadGrows(s.threads[t], s'.threads[t])
  }

  ghost predicate Grows(s: State, s': State) {
    && ConnsGrow(s, s') && WaitersGrow(s, s')
    && (s.closed ==> s'.closed) && (s.gateClosed ==> s'.gateClosed)
    && s.installed <= s'.installed && s.allocs <= s'.allocs
  }

  // --- how a step can change the state ---

  lemma MovesOne(s: State, s': State, t: nat)
    requires At(s, t) && |s'.threads| == |s.threads| && s'.threads == s.threads[t := s'.threads[t]]
    requires ThreadGrows(s.threads[t], s'.threads[t])
    ensures OnlyMoves(s, s', t)
  {
  }

  lemma ConnsStay(s: State, s': State)
    requires s'.conns == s.conns
    ensures ConnsGrow(s, s')
  {
  }

  lemma WaitersStay(s: State, s': State)
    requires s'.waiters == s.waiters
    ensures WaitersGrow(s, s')
  {
  }

  lemma OneConnGrows(s: State, s': State, c: nat)
    requires c < |s.conns| == |s'.conns| && s'.conns == s.conns[c := s'.conns[c]]
    requires ConnGrows(s.conns[c], s'.conns[c])
    ensures ConnsGrow(s, s')
  {
  }

  lemma OneWaiterGrows(s: State, s': State, w: nat)
    requires w < |s.waiters| == |s'.waiters| && s'.waiters == s.waiters[w := s'.waiters[w]]
    requires WaiterGrows(s.waiters[w], s'.waiters[w])
    ensures WaitersGrow(s, s')
  {
  }

  lemma GateGrows(p: Params, s: State, t: nat, g: GateAction)
    requires At(s, t) && GateEnabled(p, s, Pc(s, t), g)
    ensures Grows(s, ApplyGate(p, s, t, g)) && OnlyMoves(s, ApplyGate(p, s, t, g), t)
  {
    hide ConnsGrow, WaitersGrow, OnlyMoves;
    var s' := ApplyGate(p, s, t, g);
    MovesOne(s, s', t);
    ConnsStay(s, s');
    WaitersStay(s, s');
  }

  lemma LiveConnsGrow(p: Params, s: State, t: nat, l: LiveAction)
    requires At(s, t) && LiveEnabled(s, Pc(s, t), l)
    ensures var conns := LiveConns(p, s, t, l);
      |s.conns| <= |conns| && (forall c: nat | c < |s.conns| :: ConnGrows(s.conns[c], conns[c]))
  {
    hide Frames;
  }

  lemma LiveGrows(p: Params, s: State, t: nat, l: LiveAction)
    requires At(s, t) && LiveEnabled(s, Pc(s, t), l)
    ensures Grows(s, ApplyLive(p, s, t, l)) && OnlyMoves(s, ApplyLive(p, s, t, l), t)
  {
    hide LivePc, LiveConns, ConnGrows, WaitersGrow;
    LiveConnsGrow(p, s, t, l);
    WaitersStay(s, ApplyLive(p, s, t, l));
  }

  lemma ForgetGrows(s: State, c: nat, id: u32)
    ensures var s' := Forget(s, c, id);
      && ConnsGrow(s, s') && WaitersGrow(s, s')
      && s'.threads == s.threads && |s'.conns| == |s.conns| && |s'.waiters| == |s.waiters|
      && s' == s.(conns := s'.conns, waiters := s'.waiters)
      && (c < |s.conns| ==> s'.conns == s.conns[c := s.conns[c].(table := Removed(s.conns[c].table, id))])
  {
    if c < |s.conns| {
      assert id !in s.conns[c].table.pending ==> s.conns[c].table.pending - {id} == s.conns[c].table.pending;
    }
  }

  lemma RegisterGrows(s: State, t: nat)
    requires At(s, t) && Pc(s, t).Register?
    ensures Grows(s, DoRegister(s, t)) && OnlyMoves(s, DoRegister(s, t), t)
  {
    hide Forget, AfterDispatch, OnlyMoves;
    var Register(c, m, id, no) := Pc(s, t);
    ForgetGrows(s, c, id);
    MovesOne(s, DoRegister(s, t), t);
  }

  lemma WriteGrows(p: Params, s: State, t: nat)
    requires At(s, t) && Pc(s, t).Writing?
    ensures Grows(s, DoWriteSucceeds(p, s, t)) && OnlyMoves(s, DoWriteSucceeds(p, s, t), t)
  {
    hide ConnsGrow, WaitersGrow, OnlyMoves, RequestOf;
    var s' := DoWriteSucceeds(p, s, t);
    MovesOne(s, s', t);
    WaitersStay(s, s');
    if Pc(s, t).c < |s.conns| { OneConnGrows(s, s', Pc(s, t).c); } else { ConnsStay(s, s'); }
  }

  lemma RemoveGrows(p: Params, s: State, t: nat, d: DispatchAction)
    requires At(s, t) && DispatchEnabled(s, Pc(s, t), d) && (d.RemoveAfterWrite? || d.RemoveOnLeave?)
    ensures Grows(s, ApplyDispatch(p, s, t, d)) && OnlyMoves(s, ApplyDispatch(p, s, t, d), t)
  {
    hide ConnsGrow, WaitersGrow, OnlyMoves, AfterDispatch, Forget;
    var s' := ApplyDispatch(p, s, t, d);
    var forgotten := DoForget(s, Pc(s, t).c, Pc(s, t).w);
    if Pc(s, t).w < |s.waiters| {
      ForgetGrows(s, Pc(s, t).c, s.waiters[Pc(s, t).w].id);
    } else {
      ConnsStay(s, s');
      WaitersStay(s, s');
    }
    SameSequences(s, forgotten, s');
    MovesOne(s, s', t);
  }

  lemma SameSequences(s: State, s1: State, s2: State)
    requires s2.conns == s1.conns && s2.waiters == s1.waiters
    ensures ConnsGrow(s, s1) ==> ConnsGrow(s, s2)
    ensures WaitersGrow(s, s1) ==> WaitersGrow(s, s2)
  {
  }

  lemma DispatchGrows(p: Params, s: State, t: nat, d: DispatchAction)
    requires At(s, t) && DispatchEnabled(s, Pc(s, t), d)
    ensures Grows(s, ApplyDispatch(p, s, t, d)) && OnlyMoves(s, ApplyDispatch(p, s, t, d), t)
  {
    hide ConnsGrow, WaitersGrow, OnlyMoves, AfterDispatch, Received;
    hide DoRegister, DoWriteSucceeds, DoRemove;
    var s' := ApplyDispatch(p, s, t, d);
    match d {
      case RegisterWaiter => RegisterGrows(s, t);
      case WriteSucceeds => WriteGrows(p, s, t);
      case RemoveAfterWrite => RemoveGrows(p, s, t, d);
      case RemoveOnLeave => RemoveGrows(p, s, t, d);
      case Receive =>
        MovesOne(s, s', t);
        ConnsStay(s, s');
        OneWaiterGrows(s, s', Pc(s, t).w);
      case _ =>
        MovesOne(s, s', t);
        ConnsStay(s, s');
        WaitersStay(s, s');
    }
  }

  lemma SwapGrows(s: State, t: nat)
    requires At(s, t) && Pc(s, t).Kill?
    ensures Grows(s, DoPoisonSwap(s, t)) && OnlyMoves(s, DoPoisonSwap(s, t), t)
  {
    hide ConnsGrow, OnlyMoves, HoldAll;
    var s' := DoPoisonSwap(s, t);
    MovesOne(s, s', t);
    if Pc(s, t).c < |s.conns| { OneConnGrows(s, s', Pc(s, t).c); } else { ConnsStay(s, s'); }
  }

  lemma SendGrows(s: State, t: nat, w: nat, d: Message, pc: PC)
    requires At(s, t)
    ensures var s' := Move(Send(s, w, d), t, pc); Grows(s, s') && OnlyMoves(s, s', t)
  {
    hide ConnsGrow, WaitersGrow, OnlyMoves;
    var s' := Move(Send(s, w, d), t, pc);
    MovesOne(s, s', t);
    ConnsStay(s, s');
    if w < |s.waiters| { OneWaiterGrows(s, s', w); } else { WaitersStay(s, s'); }
  }

  lemma TakeGrows(s: State, s': State, c: nat, id: u32, w: nat, t: nat)
    requires s'.conns == (if c < |s.conns| then WithTable(s, c, Removed(s.conns[c].table, id)).conns else s.conns)
    requires s'.waiters == WithPlace(s, w, Held(t)).waiters
    ensures ConnsGrow(s, s') && WaitersGrow(s, s')
  {
    hide ConnsGrow, WaitersGrow;
    if c < |s.conns| { OneConnGrows(s, s', c); } else { ConnsStay(s, s'); }
    if w < |s.waiters| { OneWaiterGrows(s, s', w); } else { WaitersStay(s, s'); }
  }

  lemma MatchGrows(s: State, t: nat, w: nat, resp: Response)
    requires At(s, t) && Pc(s, t).Reading?
    ensures Grows(s, Act(s, t, Match(w, resp))) && OnlyMoves(s, Act(s, t, Match(w, resp)), t)
  {
    hide ConnsGrow, WaitersGrow, OnlyMoves, Removed;
    var s' := Act(s, t, Match(w, resp));
    MovesOne(s, s', t);
    TakeGrows(s, s', Pc(s, t).c, resp.id, w, t);
  }

  lemma ActGrows(s: State, t: nat, a: Action)
    requires At(s, t) && Pc(s, t).Reading?
    ensures Grows(s, Act(s, t, a)) && OnlyMoves(s, Act(s, t, a), t)
  {
    if a.Match? {
      hide Grows, OnlyMoves, Act;
      MatchGrows(s, t, a.w, a.resp);
    } else {
      hide ConnsGrow, WaitersGrow, OnlyMoves, AfterBody;
      MovesOne(s, Act(s, t, a), t);
      ConnsStay(s, Act(s, t, a));
      WaitersStay(s, Act(s, t, a));
    }
  }

  lemma DeliveryGrows(p: Params, s: State, t: nat, v: DeliveryAction)
    requires At(s, t) && DeliveryEnabled(s, Pc(s, t), v)
    ensures Grows(s, ApplyDelivery(p, s, t, v)) && OnlyMoves(s, ApplyDelivery(p, s, t, v), t)
  {
    hide ConnsGrow, WaitersGrow, OnlyMoves, AfterKill, DoPoisonSwap, Act, OnBody;
    var s' := ApplyDelivery(p, s, t, v);
    match v {
      case PoisonSwap => SwapGrows(s, t);
      case PoisonSend(w) =>
        var Sending(c, e, drained, after) := Pc(s, t);
        SendGrows(s, t, w, Failed(e), Sending(c, e, drained - {w}, after));
      case ReadFrame(body) =>
        var c := Pc(s, t).c;
        ActGrows(s, t, Decision(p, s, c, body));
      case DeliverResponse =>
        var Delivering(c, w, resp) := Pc(s, t);
        SendGrows(s, t, w, Got(resp, c), Reading(c));
      case _ =>
        MovesOne(s, s', t);
        ConnsStay(s, s');
        WaitersStay(s, s');
    }
  }

  /** The thread a step belongs to; a starting thread is the new last one. */
  function Mover(s: State, st: Step): nat {
    match st
    case BeginCall(_) => |s.threads|
    case BeginClose => |s.threads|
    case Gate(t, _) => t
    case Live(t, _) => t
    case Dispatch(t, _) => t
    case Delivery(t, _) => t
  }

  /** History only grows: in particular a connection's liveness is lost once and
      for all, its first error stands, and no other thread moves. */
  lemma StepGrows(p: Params, s: State, st: Step, s': State)
    requires Enabled(p, s, st) && s' == Apply(p, s, st)
    ensures Grows(s, s')
    ensures |s.threads| <= |s'.threads| <= |s.threads| + 1
    ensures forall u: nat | u < |s.threads| && u != Mover(s, st) :: s'.threads[u] == s.threads[u]
    ensures Mover(s, st) < |s.threads| ==> ThreadGrows(s.threads[Mover(s, st)], s'.threads[Mover(s, st)])
  {
    hide ApplyGate, ApplyLive, ApplyDispatch, ApplyDelivery, ThreadGrows;
    match st {
      case BeginCall(_) =>
      case BeginClose =>
      case Gate(t, g) => GateGrows(p, s, t, g);
      case Live(t, l) => LiveGrows(p, s, t, l);
      case Dispatch(t, d) => DispatchGrows(p, s, t, d);
      case Delivery(t, v) => DeliveryGrows(p, s, t, v);
    }
  }
}
