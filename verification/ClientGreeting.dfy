/**
 What a finished handshake means: every opening frame was answered with success
 on the connection it was written to, and the handshake info is what the last
 of those answers says.
 */
module ClientGreeting {
  import opened Wrappers
  import opened MsgPack
  import opened Values
  import opened ClientTypes
  import opened Client
  import opened ClientWaiters
  import opened ClientHistory
  import opened ClientControl
  import opened ClientErrors
  import opened ClientRoles
  import opened ClientLife
  import opened ClientOpening
  import opened ClientRouting
  import Handshake

  /** Waiter w brought the opener of c the answer v to the k-th frame on c. */
  ghost predicate AnswerTo(s: State, c: nat, k: nat, v: Value, w: nat) {
    && c < |s.conns| && k < |s.conns[c].written| && w < |s.waiters|
    && s.waiters[w].conn == c && s.waiters[w].owner == s.conns[c].opener
    && s.waiters[w].id == s.conns[c].written[k].req.id
    && |s.waiters[w].sends| > 0 && s.waiters[w].sends[0] == Got(ResponseOk(s.waiters[w].id, v), c)
  }

  ghost predicate AnsweredWith(s: State, c: nat, k: nat, v: Value) {
    exists w: nat :: AnswerTo(s, c, k, v, w)
  }

  ghost predicate Succeeded(s: State, c: nat, k: nat) {
    exists v :: AnsweredWith(s, c, k, v)
  }

  /** The first k opening frames on c succeeded. */
  ghost predicate SucceededUpTo(s: State, c: nat, k: nat) {
    forall j: nat | j < k :: Succeeded(s, c, j)
  }

  /** The answer to the last of the first k frames, if there were any. */
  ghost predicate LastAnswer(s: State, c: nat, k: nat, last: Option<Value>) {
    if k == 0 then last == None else last.Some? && AnsweredWith(s, c, k - 1, last.value)
  }

  /** What the handshake on c learned from the server. */
  ghost predicate LearnedOn(p: Params, s: State, c: nat, info: Handshake.Info) {
    exists last :: LastAnswer(s, c, |Frames(p)|, last) && info == Handshake.Learned(p.hs, last)
  }

  // --- the invariant ---

  /** The frame count of the opening an executing thread has had answered. */
  function Reached(pc: PC): Option<(nat, nat)> {
    match pc
    case Greeting(c, k, _) => Some((c, k))
    case Alloc(c, Opening(k)) => Some((c, k))
    case Register(c, Opening(k), _, _) => Some((c, k))
    case Writing(c, Opening(k), _) => Some((c, k))
    case Awaiting(c, Opening(k), _) => Some((c, k))
    case _ => None
  }

  ghost predicate GreetPc(p: Params, s: State, pc: PC) {
    (Reached(pc).Some? ==> Handshake.Opening(p.hs).Ok?) &&
    match pc
    case Greeting(c, k, last) => k <= |Frames(p)| && SucceededUpTo(s, c, k) && LastAnswer(s, c, k, last)
    case SetInfo(c, learned) => LearnedOn(p, s, c, learned)
    case Alloc(c, Opening(k)) => SucceededUpTo(s, c, k)
    case Register(c, Opening(k), _, _) => SucceededUpTo(s, c, k)
    case Writing(c, Opening(k), _) => SucceededUpTo(s, c, k)
    case Awaiting(c, Opening(k), _) => k < |Frames(p)| && SucceededUpTo(s, c, k)
    case _ => true
  }

  ghost predicate GreetConn(p: Params, s: State, c: nat)
    requires c < |s.conns|
  {
    && (s.conns[c].greeted ==> Handshake.Opening(p.hs).Ok? && SucceededUpTo(s, c, |Frames(p)|))
    && (s.conns[c].info.Some? ==> LearnedOn(p, s, c, s.conns[c].info.value))
  }

  ghost predicate GreetingsOk(p: Params, s: State) {
    && (forall t: nat | t < |s.threads| :: GreetPc(p, s, Pc(s, t)))
    && (forall c: nat | c < |s.conns| :: GreetConn(p, s, c))
    && (ConnectReturned(s) ==> Handshake.Opening(p.hs).Ok?)
  }

  // --- answers are not taken back ---

  lemma AnswerStays(s: State, s': State, c: nat, k: nat, v: Value)
    requires AnsweredWith(s, c, k, v) && Grows(s, s')
    ensures AnsweredWith(s', c, k, v)
  {
    var w: nat :| AnswerTo(s, c, k, v, w);
    assert ConnGrows(s.conns[c], s'.conns[c]) && WaiterGrows(s.waiters[w], s'.waiters[w]);
    assert AnswerTo(s', c, k, v, w);
  }

  lemma SuccessStays(s: State, s': State, c: nat, k: nat)
    requires SucceededUpTo(s, c, k) && Grows(s, s')
    ensures SucceededUpTo(s', c, k)
  {
    hide Grows;
    forall j: nat | j < k ensures Succeeded(s', c, j) {
      assert Succeeded(s, c, j);
      var v :| AnsweredWith(s, c, j, v);
      AnswerStays(s, s', c, j, v);
    }
  }

  lemma LastStays(s: State, s': State, c: nat, k: nat, last: Option<Value>)
    requires LastAnswer(s, c, k, last) && Grows(s, s')
    ensures LastAnswer(s', c, k, last)
  {
    hide Grows, AnsweredWith;
    if k > 0 { AnswerStays(s, s', c, k - 1, last.value); }
  }

  lemma LearnedStays(p: Params, s: State, s': State, c: nat, info: Handshake.Info)
    requires LearnedOn(p, s, c, info) && Grows(s, s')
    ensures LearnedOn(p, s', c, info)
  {
    hide Grows, LastAnswer, Frames, Handshake.Learned;
    var last :| LastAnswer(s, c, |Frames(p)|, last) && info == Handshake.Learned(p.hs, last);
    LastStays(s, s', c, |Frames(p)|, last);
  }

  lemma GreetPcStays(p: Params, s: State, s': State, pc: PC)
    requires GreetPc(p, s, pc) && Grows(s, s')
    ensures GreetPc(p, s', pc)
  {
    hide Grows, SucceededUpTo, LastAnswer, LearnedOn, Frames;
    if Reached(pc).Some? { SuccessStays(s, s', Reached(pc).value.0, Reached(pc).value.1); }
    if pc.Greeting? { LastStays(s, s', pc.c, pc.k, pc.last); }
    if pc.SetInfo? { LearnedStays(p, s, s', pc.c, pc.learned); }
  }

  // --- control flow ---

  /** A step of the opener that received a success, at most one frame further. */
  ghost predicate Earned(p: Params, s: State, st: Step, pc: PC) {
    (st.Dispatch? && st.d.Receive? && pc.Awaiting? && pc.m.Opening? && pc.w < |s.waiters| && s.waiters[pc.w].chan.Some?
     && Received(s.waiters[pc.w].chan.value).Ok?)
    ==> AnsweredWith(s, pc.c, pc.m.k, Received(s.waiters[pc.w].chan.value).value)
  }

  lemma OneMore(s: State, c: nat, k: nat, v: Value)
    requires SucceededUpTo(s, c, k) && AnsweredWith(s, c, k, v)
    ensures SucceededUpTo(s, c, k + 1) && LastAnswer(s, c, k + 1, Some(v))
  {
    hide AnsweredWith;
    assert Succeeded(s, c, k);
  }

  lemma AfterDispatchGreets(p: Params, s: State, th: Thread, c: nat, m: Mode, r: Outcome)
    requires m.Opening? && r.Ok? ==> m.k < |Frames(p)| && SucceededUpTo(s, c, m.k) && AnsweredWith(s, c, m.k, r.value)
    ensures GreetPc(p, s, AfterDispatch(th, c, m, r))
  {
    hide SucceededUpTo, LastAnswer, AnsweredWith, Handshake.Opening;
    if m.Opening? && r.Ok? { OneMore(s, c, m.k, r.value); }
  }

  lemma LiveGreets(p: Params, s: State, th: Thread, l: LiveAction)
    requires LiveEnabled(s, th.pc, l) && GreetPc(p, s, th.pc)
    ensures GreetPc(p, s, LivePc(p, s, th, l))
  {
    hide Alive, Handshake.Learned, AnsweredWith, Succeeded;
    if l.GreetNext? && th.pc.k >= |Frames(p)| {
      assert LastAnswer(s, th.pc.c, |Frames(p)|, th.pc.last);
    }
  }

  lemma DispatchGreets(p: Params, s: State, t: nat, d: DispatchAction)
    requires At(s, t) && DispatchEnabled(s, Pc(s, t), d) && GreetPc(p, s, Pc(s, t)) && Earned(p, s, Dispatch(t, d), Pc(s, t))
    requires ProgressOk(p, s, Pc(s, t))
    ensures GreetPc(p, s, DispatchPc(s, s.threads[t], d))
  {
    hide Alive, SucceededUpTo, LastAnswer, AnsweredWith, LearnedOn, AfterDispatch, Received, Frames;
    var th := s.threads[t];
    match d {
      case RegisterWaiter => AfterDispatchGreets(p, s, th, th.pc.c, th.pc.m, Err(WriteFailed));
      case Receive => AfterDispatchGreets(p, s, th, th.pc.c, th.pc.m, Received(s.waiters[th.pc.w].chan.value));
      case RemoveOnLeave => AfterDispatchGreets(p, s, th, th.pc.c, th.pc.m, Err(th.pc.why));
      case _ =>
    }
  }

  lemma OtherGreets(p: Params, s: State, st: Step)
    requires Enabled(p, s, st) && (st.Gate? || st.Delivery?)
    ensures GreetPc(p, s, Moved(p, s, st).pc)
  {
    hide OnBody, SucceededUpTo, LastAnswer, LearnedOn, Frames;
  }

  lemma MoverGreets(p: Params, s: State, st: Step)
    requires Enabled(p, s, st) && !st.BeginCall? && !st.BeginClose? && GreetPc(p, s, Pc(s, st.t))
    requires ProgressOk(p, s, Pc(s, st.t)) && Earned(p, s, st, Pc(s, st.t))
    ensures GreetPc(p, s, Moved(p, s, st).pc)
  {
    hide GatePc, LivePc, DispatchPc, DeliveryPc, GreetPc, ProgressOk, Earned;
    match st {
      case Gate(_, _) => OtherGreets(p, s, st);
      case Live(t, l) => LiveGreets(p, s, s.threads[t], l);
      case Dispatch(t, d) => DispatchGreets(p, s, t, d);
      case Delivery(_, _) => OtherGreets(p, s, st);
    }
  }

  // --- the answer itself ---

  /** The frame a thread wrote as its k-th opening frame is the k-th on the connection. */
  lemma OpeningFrameIsKth(p: Params, s: State, c: nat, i: nat, t: nat, k: nat, id: u32)
    requires OpeningsOk(p, s) && FrameIs(s, c, i, t, Opening(k), id)
    ensures i == k
  {
    hide Frames;
    var x := s.conns[c];
    assert WrittenOk(p, s, x);
    assert i >= Opened(p, x) ==> CallFrame(s, x, i);
    assert OpeningFrame(p, x, i);
  }

  lemma ReceiptEarns(p: Params, s: State, st: Step)
    requires WaitersOk(s) && ErrorsOk(s) && RoutingOk(s) && OpeningsOk(p, s) && InstalledOk(s)
    requires Enabled(p, s, st) && !st.BeginCall? && !st.BeginClose?
    ensures Earned(p, s, st, Pc(s, st.t))
  {
    hide OpeningsOk, WaitersOk, ErrorsOk, RoutingOk, InstalledOk, LiveEnabled, DeliveryEnabled;
    var pc := Pc(s, st.t);
    if st.Dispatch? && st.d.Receive? && pc.m.Opening? && Received(s.waiters[pc.w].chan.value).Ok? {
      ReceivedAnswers(p, s, st.t);
    }
  }

  lemma ReceivedAnswers(p: Params, s: State, t: nat)
    requires WaitersOk(s) && ErrorsOk(s) && RoutingOk(s) && OpeningsOk(p, s) && InstalledOk(s)
    requires At(s, t) && DispatchEnabled(s, Pc(s, t), Receive) && Pc(s, t).m.Opening?
    requires Received(s.waiters[Pc(s, t).w].chan.value).Ok?
    ensures AnsweredWith(s, Pc(s, t).c, Pc(s, t).m.k, Received(s.waiters[Pc(s, t).w].chan.value).value)
  {
    hide OpeningsOk, OnTheWire;
    var Awaiting(c, m, w) := Pc(s, t);
    var x := s.waiters[w];
    assert ThreadOk(s, t) && ChannelOk(s, w) && SentOk(s, x) && WroteIt(s, t) && OpeningOk(s, t);
    assert x.chan.value in x.sends;
    WireMeans(s, c, t, m, x.id);
    var i: nat :| FrameIs(s, c, i, t, m, x.id);
    OpeningFrameIsKth(p, s, c, i, t, m.k, x.id);
    assert AnswerTo(s, c, m.k, x.chan.value.resp.ok, w);
  }

  lemma WireMeans(s: State, c: nat, t: nat, m: Mode, id: u32)
    requires OnTheWire(s, c, t, m, id)
    ensures exists i: nat :: FrameIs(s, c, i, t, m, id)
  {
  }

  // --- every step ---

  lemma GreetConnStep(p: Params, s: State, st: Step, s': State, c: nat)
    requires GreetingsOk(p, s) && Enabled(p, s, st) && s' == Apply(p, s, st) && Grows(s, s') && c < |s'.conns|
    ensures GreetConn(p, s', c)
  {
    hide Apply, Grows, SucceededUpTo, LearnedOn, Frames, Adds, LastAnswer;
    StepConns(p, s, st, s');
    if c < |s.conns| {
      assert FateIs(p, s, st, s', c) && GreetConn(p, s, c);
      if s.conns[c].greeted { SuccessStays(s, s', c, |Frames(p)|); }
      if s.conns[c].info.Some? { LearnedStays(p, s, s', c, s.conns[c].info.value); }
      if st.Live? && Pc(s, st.t).Greeting? {
        assert GreetPc(p, s, Pc(s, st.t));
        SuccessStays(s, s', Pc(s, st.t).c, Pc(s, st.t).k);
      }
      if st.Live? && Pc(s, st.t).SetInfo? {
        assert GreetPc(p, s, Pc(s, st.t));
        LearnedStays(p, s, s', Pc(s, st.t).c, Pc(s, st.t).learned);
      }
    }
  }

  lemma GreetingsStep(p: Params, s: State, st: Step, s': State)
    requires GreetingsOk(p, s) && WaitersOk(s) && ErrorsOk(s) && RoutingOk(s) && OpeningsOk(p, s) && InstalledOk(s)
    requires RolesOk(s) && Enabled(p, s, st) && s' == Apply(p, s, st)
    ensures GreetingsOk(p, s')
  {
    hide Apply, Enabled, Moved, GreetPc, GreetConn, WaitersOk, ErrorsOk, RoutingOk, InstalledOk, Earned, ProgressOk;
    StepGrows(p, s, st, s');
    StepThreads(p, s, st, s');
    forall c: nat | c < |s'.conns| ensures GreetConn(p, s', c) {
      GreetConnStep(p, s, st, s', c);
    }
    AcceptedStep(p, s, st, s');
    forall t: nat | t < |s'.threads| ensures GreetPc(p, s', Pc(s', t)) {
      if !st.BeginCall? && !st.BeginClose? && t == st.t {
        ReceiptEarns(p, s, st);
        MoverGreets(p, s, st);
        GreetPcStays(p, s, s', Pc(s', t));
      } else if t < |s.threads| {
        GreetPcStays(p, s, s', Pc(s, t));
      } else { NewGreets(p, s, st, s', t); }
    }
  }

  /** Connect returns only with a connection whose handshake succeeded. */
  lemma AcceptedStep(p: Params, s: State, st: Step, s': State)
    requires GreetingsOk(p, s) && OpeningsOk(p, s) && Enabled(p, s, st) && s' == Apply(p, s, st)
    requires RolesOk(s)
    ensures ConnectReturned(s') ==> Handshake.Opening(p.hs).Ok?
  {
    hide Apply, Frames, Handshake.Opening, GreetPc, Suits, HoldsLock;
    StepThreads(p, s, st, s');
    assert RoleOk(s, 0) && ProgressOk(p, s, Pc(s, 0));
    if ConnectReturned(s') && !ConnectReturned(s) {
      ConnectorReturns(p, s, st);
      assert GreetConn(p, s, Pc(s, 0).ending.target);
    }
  }

  lemma ConnectorReturns(p: Params, s: State, st: Step)
    requires Enabled(p, s, st) && !st.BeginCall? && !st.BeginClose? && st.t == 0
    requires s.threads[0].kind == Connector && Suits(Connector, Pc(s, 0)) && !Pc(s, 0).Done?
    requires Moved(p, s, st).pc.Done? && Moved(p, s, st).pc.out.Ok?
    ensures Pc(s, 0).Unlock? && Pc(s, 0).ending.Go?
  {
    hide OnBody, Alive, Received, Frames, Handshake.Opening, Handshake.Learned;
  }

  lemma NewGreets(p: Params, s: State, st: Step, s': State, t: nat)
    requires Enabled(p, s, st) && s' == Apply(p, s, st) && |s.threads| <= t < |s'.threads|
    ensures GreetPc(p, s', Pc(s', t))
  {
    hide Apply, Enabled, Moved;
    StepThreads(p, s, st, s');
  }

  lemma InitGreetingsOk(p: Params)
    ensures GreetingsOk(p, Init())
  {
  }
}
