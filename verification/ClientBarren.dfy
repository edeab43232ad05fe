/**
 When a closed client can no longer get a live connection: its current
 connection is dead or gone, and no re-dial under way can still succeed.
 No step leads out of that.
 */
module ClientBarren {
  import opened Wrappers
  import opened MsgPack
  import opened ClientTypes
  import opened ConnTable
  import opened Client
  import opened ClientWaiters
  import opened ClientHistory
  import opened ClientControl
  import opened ClientErrors
  import opened ClientRoles
  import opened ClientLife
  import Handshake

  // --- which re-dials can still succeed ---

  predicate Reads(s: State, r: nat, c: nat) {
    At(s, r) && (Pc(s, r).Reading? || Pc(s, r).Delivering? || Pc(s, r).Dropping?) && Pc(s, r).c == c
  }

  /** The reader of c is still in its loop. */
  ghost predicate HasReader(s: State, c: nat) { exists r: nat :: Reads(s, r, c) }

  predicate IsSuccess(d: Message) { d.Got? && d.resp.ResponseOk? }

  /** Reader r is about to send waiter w a success. */
  predicate Brings(s: State, r: nat, c: nat, w: nat) {
    At(s, r) && Pc(s, r).Delivering? && Pc(s, r).c == c && Pc(s, r).w == w && Pc(s, r).resp.ResponseOk?
  }

  ghost predicate IsBrought(s: State, c: nat, w: nat) { exists r: nat :: Brings(s, r, c, w) }

  /** The k-th opening frame on c, awaited through w, may still be answered with
      success, and a reader is left for the frames after it. */
  ghost predicate Promising(p: Params, s: State, c: nat, k: nat, w: nat) {
    w < |s.waiters| &&
    var x := s.waiters[w];
    if x.chan.Some? then IsSuccess(x.chan.value) && (k + 1 >= |Frames(p)| || HasReader(s, c))
    else IsBrought(s, c, w) || (x.place == InTable && HasReader(s, c))
  }

  /** A kill after which a caller with budget left dials again. */
  predicate Resumes(after: After) {
    match after
    case AfterWrite(m) => m.Opening?
    case AfterGreeting(why) => why != AuthError
    case _ => false
  }

  /** From this place, with or without budget left, a live connection can still be installed. */
  ghost predicate Fertile(p: Params, s: State, pc: PC, budget: bool) {
    match pc
    case ReRead => budget
    case ReCheckAlive(_) => budget
    case Redial(_) => budget
    case Dialing => true
    case Greeting(c, k, _) => if k < |Frames(p)| then budget || (Alive(s, c) && HasReader(s, c)) else Alive(s, c)
    case SetInfo(c, _) => Alive(s, c)
    case Install(c) => Alive(s, c)
    case Alloc(c, Opening(_)) => budget || (Alive(s, c) && HasReader(s, c))
    case Register(c, Opening(_), _, _) => budget || (Alive(s, c) && HasReader(s, c))
    case Writing(c, Opening(k), w) => budget || (Alive(s, c) && Promising(p, s, c, k, w))
    case Awaiting(c, Opening(k), w) => budget || (Alive(s, c) && Promising(p, s, c, k, w))
    case Unregister(_, Opening(_), _) => budget
    case Leaving(_, Opening(_), _, why) => budget && AsHandshakeError(why) != AuthError
    case Kill(_, _, after) => budget && Resumes(after)
    case Sending(_, _, _, after) => budget && Resumes(after)
    case _ => false
  }

  /** Thread t is a caller re-dialing past the second look at the closed flag, and may still succeed. */
  ghost predicate CanStillInstall(p: Params, s: State, t: nat) {
    At(s, t) && s.threads[t].kind == Caller && Fertile(p, s, Pc(s, t), s.threads[t].budget > 0)
  }

  ghost predicate Barren(p: Params, s: State) {
    s.closed && !AliveOption(s, s.current) && forall t: nat :: !CanStillInstall(p, s, t)
  }

  // --- a step gives no reader and no answer back ---

  lemma ReaderMoves(p: Params, s: State, st: Step, c: nat)
    requires Enabled(p, s, st) && !st.BeginCall? && !st.BeginClose?
    requires Moved(p, s, st).pc.Reading? || Moved(p, s, st).pc.Delivering? || Moved(p, s, st).pc.Dropping?
    requires Moved(p, s, st).pc.c == c
    ensures Reads(s, st.t, c)
    ensures Moved(p, s, st).pc.Delivering? ==>
      st.Delivery? && st.v.ReadFrame? && Pc(s, st.t).Reading?
      && Decision(p, s, c, st.v.body) == Match(Moved(p, s, st).pc.w, Moved(p, s, st).pc.resp)
  {
    hide OnBody, Alive, Received, Frames, Handshake.Opening, Handshake.Learned;
  }

  lemma ReaderBack(p: Params, s: State, st: Step, s': State, c: nat)
    requires Enabled(p, s, st) && s' == Apply(p, s, st) && HasReader(s', c) && c < |s.conns|
    ensures HasReader(s, c)
  {
    hide Apply, Enabled, Moved;
    StepThreads(p, s, st, s');
    var r: nat :| Reads(s', r, c);
    if r < |s.threads| {
      if !st.BeginCall? && !st.BeginClose? && r == st.t { ReaderMoves(p, s, st, c); }
      assert Reads(s, r, c);
    }
  }

  /** A success on its way came from a table entry, or was on its way before. */
  lemma BroughtBack(p: Params, s: State, st: Step, s': State, c: nat, w: nat)
    requires WaitersOk(s) && Enabled(p, s, st) && s' == Apply(p, s, st) && IsBrought(s', c, w) && c < |s.conns|
    ensures IsBrought(s, c, w) || (HasReader(s, c) && w < |s.waiters| && s.waiters[w].place == InTable && s.waiters[w].chan == None)
  {
    hide Apply, Enabled, Moved, WaitersOk;
    StepThreads(p, s, st, s');
    var r: nat :| Brings(s', r, c, w);
    if !st.BeginCall? && !st.BeginClose? && r == st.t {
      ReaderMoves(p, s, st, c);
      MatchWasPending(p, s, c, st.v.body);
    } else {
      assert Brings(s, r, c, w);
    }
  }

  lemma MatchWasPending(p: Params, s: State, c: nat, body: Octets)
    requires WaitersOk(s) && c < |s.conns| && Decision(p, s, c, body).Match?
    ensures var w := Decision(p, s, c, body).w;
      w < |s.waiters| && s.waiters[w].place == InTable && s.waiters[w].chan == None
  {
    var w := Decision(p, s, c, body).w;
    assert PointsToIts(s, c, Decision(p, s, c, body).resp.id);
    assert ChannelOk(s, w);
  }

  predicate Receives(s: State, st: Step, w: nat) {
    st.Dispatch? && st.d.Receive? && At(s, st.t) && Pc(s, st.t).Awaiting? && Pc(s, st.t).w == w
  }

  /** What a step does to the channel and place of a waiter. */
  lemma ChannelMoves(p: Params, s: State, st: Step, s': State, w: nat)
    requires Enabled(p, s, st) && s' == Apply(p, s, st) && w < |s.waiters|
    ensures w < |s'.waiters| && (s'.waiters[w].place == InTable ==> s.waiters[w].place == InTable)
    ensures s'.waiters[w].chan == s.waiters[w].chan
      || (Receives(s, st, w) && s'.waiters[w].chan == None)
      || (st.Delivery? && Posts(Pc(s, st.t), st.v, w) != [] && s'.waiters[w].chan == Some(Posts(Pc(s, st.t), st.v, w)[0]))
  {
    hide ApplyGate, ApplyLive, ApplyDispatch, ApplyDelivery, GateEnabled, LiveEnabled, DispatchEnabled, DeliveryEnabled;
    match st {
      case BeginCall(_) =>
      case BeginClose =>
      case Gate(t, g) => GateFields(p, s, t, g);
      case Live(t, l) => LiveFields(p, s, t, l);
      case Dispatch(t, d) => DispatchChannel(p, s, t, d, w);
      case Delivery(t, v) => DeliveryChannel(p, s, t, v, w);
    }
  }

  lemma ForgetChannel(s: State, c: nat, id: u32, w: nat)
    requires w < |s.waiters|
    ensures w < |Forget(s, c, id).waiters| && Forget(s, c, id).waiters[w].chan == s.waiters[w].chan
    ensures Forget(s, c, id).waiters[w].place == InTable ==> s.waiters[w].place == InTable
  {
  }

  lemma DispatchChannel(p: Params, s: State, t: nat, d: DispatchAction, w: nat)
    requires At(s, t) && DispatchEnabled(s, Pc(s, t), d) && w < |s.waiters|
    ensures var s' := ApplyDispatch(p, s, t, d);
      && w < |s'.waiters| && (s'.waiters[w].place == InTable ==> s.waiters[w].place == InTable)
      && (s'.waiters[w].chan == s.waiters[w].chan || (Receives(s, Dispatch(t, d), w) && s'.waiters[w].chan == None))
  {
    hide Forget, DispatchPc, DispatchThread, RequestOf, Removed;
    match d {
      case RegisterWaiter => ForgetChannel(s, Pc(s, t).c, Pc(s, t).id, w);
      case RemoveAfterWrite => if Pc(s, t).w < |s.waiters| { ForgetChannel(s, Pc(s, t).c, s.waiters[Pc(s, t).w].id, w); }
      case RemoveOnLeave => if Pc(s, t).w < |s.waiters| { ForgetChannel(s, Pc(s, t).c, s.waiters[Pc(s, t).w].id, w); }
      case _ =>
    }
  }

  lemma ActChannel(s: State, t: nat, a: Action, w: nat)
    requires At(s, t) && Pc(s, t).Reading? && w < |s.waiters|
    ensures w < |Act(s, t, a).waiters| && Act(s, t, a).waiters[w].chan == s.waiters[w].chan
    ensures Act(s, t, a).waiters[w].place == InTable ==> s.waiters[w].place == InTable
  {
    hide AfterBody, Removed;
  }

  lemma DeliveryChannel(p: Params, s: State, t: nat, v: DeliveryAction, w: nat)
    requires At(s, t) && DeliveryEnabled(s, Pc(s, t), v) && w < |s.waiters|
    ensures var s' := ApplyDelivery(p, s, t, v);
      && w < |s'.waiters| && (s'.waiters[w].place == InTable ==> s.waiters[w].place == InTable)
      && (if Posts(Pc(s, t), v, w) == [] then s'.waiters[w].chan == s.waiters[w].chan
          else s'.waiters[w].chan == Some(Posts(Pc(s, t), v, w)[0]))
  {
    hide DeliveryPc, AfterSwap, Act, PoisonedConn, Drained, OnBody;
    if v.ReadFrame? { ActChannel(s, t, Decision(p, s, Pc(s, t).c, v.body), w); }
  }

  /** A post of success to w comes from the reader of its connection. */
  lemma SuccessIsBrought(p: Params, s: State, t: nat, v: DeliveryAction, c: nat, w: nat)
    requires WaitersOk(s) && ErrorsOk(s) && At(s, t) && DeliveryEnabled(s, Pc(s, t), v)
    requires w < |s.waiters| && s.waiters[w].conn == c
    requires Posts(Pc(s, t), v, w) != [] && IsSuccess(Posts(Pc(s, t), v, w)[0])
    ensures IsBrought(s, c, w) && HasReader(s, c)
  {
    assert PcOk(s, Pc(s, t)) && ThreadOk(s, t);
    assert Brings(s, t, c, w);
    assert Reads(s, t, c);
  }

  /** What a step of somebody else makes promising was so before. */
  lemma PromisingBack(p: Params, s: State, st: Step, s': State, c: nat, k: nat, w: nat)
    requires WaitersOk(s) && ErrorsOk(s) && Enabled(p, s, st) && s' == Apply(p, s, st)
    requires w < |s.waiters| && s.waiters[w].conn == c && c < |s.conns| && !Receives(s, st, w)
    requires Promising(p, s', c, k, w)
    ensures Promising(p, s, c, k, w)
  {
    hide ApplyGate, ApplyLive, ApplyDispatch, ApplyDelivery, LiveEnabled, DispatchEnabled, WaitersOk, ErrorsOk;
    hide HasReader, IsBrought, Frames;
    ChannelMoves(p, s, st, s', w);
    if HasReader(s', c) { ReaderBack(p, s, st, s', c); }
    if IsBrought(s', c, w) { BroughtBack(p, s, st, s', c, w); }
    var posted := st.Delivery? && Posts(Pc(s, st.t), st.v, w) != [];
    if posted && IsSuccess(Posts(Pc(s, st.t), st.v, w)[0]) { SuccessIsBrought(p, s, st.t, st.v, c, w); }
    if s'.waiters[w].chan != s.waiters[w].chan { PostedWasEmpty(p, s, st, w); }
  }

  lemma PostedWasEmpty(p: Params, s: State, st: Step, w: nat)
    requires Enabled(p, s, st) && st.Delivery? && Posts(Pc(s, st.t), st.v, w) != [] && w < |s.waiters|
    ensures s.waiters[w].chan == None
  {
  }

  /** The connection and frame a fertile place depends on. */
  lemma FertileBack(p: Params, s: State, st: Step, s': State, pc: PC, budget: bool)
    requires WaitersOk(s) && ErrorsOk(s) && Enabled(p, s, st) && s' == Apply(p, s, st) && Grows(s, s')
    requires Fertile(p, s', pc, budget) && (ConnOf(pc).Some? ==> ConnOf(pc).value < |s.conns|)
    requires Slot(pc).Some? ==> pc.w < |s.waiters| && s.waiters[pc.w].conn == pc.c && !Receives(s, st, pc.w)
    ensures Fertile(p, s, pc, budget)
  {
    hide Apply, Enabled, WaitersOk, ErrorsOk, HasReader, Promising, Frames, WaitersGrow, Receives, AsHandshakeError, Resumes;
    if ConnOf(pc).Some? {
      var c := ConnOf(pc).value;
      assert Alive(s', c) ==> Alive(s, c) by { assert ConnGrows(s.conns[c], s'.conns[c]); }
      if HasReader(s', c) { ReaderBack(p, s, st, s', c); }
      if (pc.Writing? || pc.Awaiting?) && pc.m.Opening? && Promising(p, s', c, pc.m.k, pc.w) {
        PromisingBack(p, s, st, s', c, pc.m.k, pc.w);
      }
    }
  }

  // --- the re-dialing caller itself ---

  /** Any step of a place that stays fertile starts from a fertile place. */
  lemma LiveFertile(p: Params, s: State, th: Thread, l: LiveAction)
    requires LiveEnabled(s, th.pc, l) && th.kind == Caller && s.closed && !l.DialSucceeds?
    requires Fertile(p, s, LivePc(p, s, th, l), LiveThread(p, s, th, l).budget > 0)
    ensures Fertile(p, s, th.pc, th.budget > 0)
  {
    hide Alive, HasReader, Promising, Frames, Handshake.Learned, Handshake.Opening, AsHandshakeError;
  }

  lemma DispatchFertile(p: Params, s: State, th: Thread, d: DispatchAction)
    requires DispatchEnabled(s, th.pc, d) && !(d.RegisterWaiter? && Alive(s, th.pc.c))
    requires Fertile(p, s, DispatchPc(s, th, d), th.budget > 0)
    ensures Fertile(p, s, th.pc, th.budget > 0)
  {
    hide Alive, HasReader, IsBrought, Frames;
    if d.Receive? { ReceiptFertile(p, s, th); }
  }

  lemma ReceiptFertile(p: Params, s: State, th: Thread)
    requires DispatchEnabled(s, th.pc, Receive)
    requires Fertile(p, s, DispatchPc(s, th, Receive), th.budget > 0)
    ensures Fertile(p, s, th.pc, th.budget > 0)
  {
    hide Alive, HasReader, IsBrought, Frames, AsHandshakeError;
  }

  lemma DeliveryFertile(p: Params, s: State, th: Thread, v: DeliveryAction)
    requires DeliveryEnabled(s, th.pc, v) && th.kind == Caller
    requires Fertile(p, s, DeliveryPc(p, s, th, v), th.budget > 0)
    ensures Fertile(p, s, th.pc, th.budget > 0)
  {
    hide Alive, HasReader, Promising, Frames, OnBody;
  }

  /** The waiter a thread keeps or gains, seen before the step. */
  lemma KeptSlot(p: Params, s: State, st: Step)
    requires Enabled(p, s, st) && !st.BeginCall? && !st.BeginClose?
    ensures var pc, pc' := Pc(s, st.t), Moved(p, s, st).pc;
      Slot(pc').Some? ==>
        && st.Dispatch? && !st.d.Receive?
        && (st.d.RegisterWaiter? || (Slot(pc) == Slot(pc') && pc.c == pc'.c))
        && (st.d.RegisterWaiter? ==> pc.Register? && Alive(s, pc.c) && pc' == Writing(pc.c, pc.m, |s.waiters|))
  {
    hide Apply, OnBody, Alive, Received;
    hide Handshake.Opening, Frames, Handshake.Learned;
  }

  /** A fresh waiter is brought nothing. */
  lemma FreshIsNotBrought(p: Params, s: State, st: Step, s': State, c: nat)
    requires WaitersOk(s) && Enabled(p, s, st) && s' == Apply(p, s, st) && st.Dispatch?
    ensures !IsBrought(s', c, |s.waiters|)
  {
    hide Apply, Enabled, Moved;
    StepThreads(p, s, st, s');
    forall r: nat ensures !Brings(s', r, c, |s.waiters|) {
      if r == st.t {
        DispatcherBringsNothing(p, s, st);
      } else if r < |s.threads| {
        assert ThreadOk(s, r);
        assert |s.waiters| !in Carried(Pc(s, r));
      }
    }
  }

  lemma DispatcherBringsNothing(p: Params, s: State, st: Step)
    requires Enabled(p, s, st) && st.Dispatch?
    ensures !Moved(p, s, st).pc.Delivering?
  {
    hide Alive, Received;
  }

  lemma RegisteredFertile(p: Params, s: State, st: Step, s': State, budget: bool)
    requires WaitersOk(s) && ErrorsOk(s) && Enabled(p, s, st) && s' == Apply(p, s, st) && Grows(s, s')
    requires st.Dispatch? && st.d.RegisterWaiter? && Pc(s, st.t).Register? && Alive(s, Pc(s, st.t).c)
    requires Fertile(p, s', Writing(Pc(s, st.t).c, Pc(s, st.t).m, |s.waiters|), budget)
    ensures Fertile(p, s, Pc(s, st.t), budget)
  {
    assert At(s, st.t);
    hide Apply, Enabled, HasReader, IsBrought, Frames, WaitersOk, ErrorsOk, Grows;
    var c := Pc(s, st.t).c;
    RegisteredFresh(p, s, st, s');
    FreshIsNotBrought(p, s, st, s', c);
    if HasReader(s', c) { ReaderBack(p, s, st, s', c); }
  }

  lemma RegisteredFresh(p: Params, s: State, st: Step, s': State)
    requires Enabled(p, s, st) && s' == Apply(p, s, st) && st.Dispatch? && st.d.RegisterWaiter? && Alive(s, Pc(s, st.t).c)
    ensures |s.waiters| < |s'.waiters| && s'.waiters[|s.waiters|].chan == None
  {
    hide ApplyDispatch;
    DispatchWaiters(p, s, st.t, st.d);
  }

  lemma MoverFertile(p: Params, s: State, st: Step, s': State)
    requires WaitersOk(s) && WaitersOk(s') && ErrorsOk(s) && RolesOk(s) && s.closed && Grows(s, s')
    requires Enabled(p, s, st) && s' == Apply(p, s, st) && !st.BeginCall? && !st.BeginClose?
    requires CanStillInstall(p, s', st.t)
    ensures CanStillInstall(p, s, st.t)
  {
    hide Apply, Enabled, Moved, Fertile, WaitersOk, ErrorsOk, RolesOk, Grows;
    StepThreads(p, s, st, s');
    MovedKeeps(p, s, st);
    var pc, pc', budget := Pc(s, st.t), Pc(s', st.t), s'.threads[st.t].budget > 0;
    if Dials(st) {
      DialerIsFertile(p, s, st);
    } else if st.Dispatch? && st.d.RegisterWaiter? && Slot(pc').Some? {
      KeptSlot(p, s, st);
      RegisteredFertile(p, s, st, s', budget);
    } else {
      MoverPlace(p, s, st, s');
      FertileBack(p, s, st, s', pc', budget);
      StepFertile(p, s, st);
    }
  }

  lemma MovedKeeps(p: Params, s: State, st: Step)
    requires Enabled(p, s, st) && !st.BeginCall? && !st.BeginClose?
    ensures At(s, st.t) && Moved(p, s, st).kind == s.threads[st.t].kind
    ensures !(st.Live? && st.l.SpendBudget?) ==> Moved(p, s, st).budget == s.threads[st.t].budget
  {
    hide GatePc, LivePc, DispatchPc, DeliveryPc;
  }

  lemma DialerIsFertile(p: Params, s: State, st: Step)
    requires Enabled(p, s, st) && Dials(st)
    ensures Fertile(p, s, Pc(s, st.t), s.threads[st.t].budget > 0)
  {
  }

  lemma MoverPlace(p: Params, s: State, st: Step, s': State)
    requires WaitersOk(s) && WaitersOk(s') && ErrorsOk(s) && Grows(s, s') && Enabled(p, s, st) && s' == Apply(p, s, st)
    requires !st.BeginCall? && !st.BeginClose? && !Dials(st) && At(s', st.t) && s'.threads[st.t] == Moved(p, s, st)
    requires !(st.Dispatch? && st.d.RegisterWaiter? && Slot(Pc(s', st.t)).Some?)
    ensures var pc' := Pc(s', st.t);
      && (ConnOf(pc').Some? ==> ConnOf(pc').value < |s.conns|)
      && (Slot(pc').Some? ==> pc'.w < |s.waiters| && s.waiters[pc'.w].conn == pc'.c && !Receives(s, st, pc'.w))
  {
    hide Apply, Moved, PcOk, Grows;
    MoverOk(p, s, st, s');
    StepConns(p, s, st, s');
    InPlace(s', Pc(s', st.t));
    KeptSlot(p, s, st);
    assert ThreadOk(s, st.t);
  }

  lemma InPlace(s: State, pc: PC)
    requires PcOk(s, pc)
    ensures ConnOf(pc).Some? ==> ConnOf(pc).value < |s.conns|
  {
  }

  lemma StepFertile(p: Params, s: State, st: Step)
    requires Enabled(p, s, st) && !st.BeginCall? && !st.BeginClose? && !Dials(st) && s.closed
    requires !(st.Dispatch? && st.d.RegisterWaiter? && Slot(Moved(p, s, st).pc).Some?)
    requires s.threads[st.t].kind == Caller && Fertile(p, s, Moved(p, s, st).pc, Moved(p, s, st).budget > 0)
    ensures Fertile(p, s, Pc(s, st.t), s.threads[st.t].budget > 0)
  {
    hide GatePc, LivePc, DispatchPc, DeliveryPc, Fertile;
    var th := s.threads[st.t];
    MovedKeeps(p, s, st);
    match st {
      case Gate(t, g) => GateIsBarren(p, s, th.pc, g, th.budget > 0);
      case Live(t, l) => LiveFertile(p, s, th, l);
      case Dispatch(t, d) =>
        if d.RegisterWaiter? { RegistersOrNot(s, th); }
        DispatchFertile(p, s, th, d);
      case Delivery(t, v) => DeliveryFertile(p, s, th, v);
    }
  }

  lemma RegistersOrNot(s: State, th: Thread)
    requires DispatchEnabled(s, th.pc, RegisterWaiter)
    ensures Alive(s, th.pc.c) ==> Slot(DispatchPc(s, th, RegisterWaiter)).Some?
  {
  }

  lemma GateIsBarren(p: Params, s: State, pc: PC, g: GateAction, budget: bool)
    requires GateEnabled(p, s, pc, g)
    ensures !Fertile(p, s, GatePc(s, pc, g), budget)
  {
  }

  // --- every step ---

  /** After Close only callers re-dial. */
  lemma LockerIsCaller(s: State, t: nat)
    requires RolesOk(s) && s.closed && At(s, t) && HoldsLock(Pc(s, t))
    ensures s.threads[t].kind == Caller
  {
    assert RoleOk(s, t) && RoleOk(s, 0);
  }

  ghost predicate NobodyInstalls(p: Params, s: State) { s.closed && forall t: nat :: !CanStillInstall(p, s, t) }

  /** With nobody left to install, the current connection stays or goes. */
  lemma CurrentStaysOrGoes(p: Params, s: State, st: Step, s': State)
    requires NobodyInstalls(p, s) && RolesOk(s) && Grows(s, s') && Enabled(p, s, st) && s' == Apply(p, s, st)
    requires s.current.Some? ==> s.current.value < |s.conns|
    requires Installs(st) ==> Pc(s, st.t).c < |s.conns|
    ensures AliveOption(s', s'.current) ==> AliveOption(s, s.current) && s'.current == s.current
  {
    hide Apply, ApplyGate, RolesOk, WaitersGrow, DispatchEnabled, DeliveryEnabled;
    StepFields(p, s, st, s');
    if Installs(st) {
      LockerIsCaller(s, st.t);
      assert !CanStillInstall(p, s, st.t);
      assert ConnGrows(s.conns[Pc(s, st.t).c], s'.conns[Pc(s, st.t).c]);
    } else if s.current.Some? {
      assert ConnGrows(s.conns[s.current.value], s'.conns[s.current.value]);
    }
  }

  lemma NobodyInstallsStep(p: Params, s: State, st: Step, s': State)
    requires NobodyInstalls(p, s) && WaitersOk(s) && WaitersOk(s') && ErrorsOk(s) && RolesOk(s)
    requires Enabled(p, s, st) && s' == Apply(p, s, st)
    ensures NobodyInstalls(p, s')
    ensures AliveOption(s', s'.current) ==> AliveOption(s, s.current) && s'.current == s.current
  {
    hide Apply, Enabled, Moved, Fertile, WaitersOk, RolesOk, Grows, Alive;
    StepGrows(p, s, st, s');
    StepFields(p, s, st, s');
    StepThreads(p, s, st, s');
    if Installs(st) { InstallOk(p, s, st); }
    CurrentStaysOrGoes(p, s, st, s');
    forall t: nat ensures !CanStillInstall(p, s', t) {
      assert !CanStillInstall(p, s, t);
      if CanStillInstall(p, s', t) {
        if !st.BeginCall? && !st.BeginClose? && t == st.t {
          MoverFertile(p, s, st, s');
        } else if t < |s.threads| {
          OtherFertile(p, s, st, s', t);
        } else {
          NewIsBarren(p, s, st, s', t);
        }
      }
    }
  }

  lemma BarrenStep(p: Params, s: State, st: Step, s': State)
    requires Barren(p, s) && WaitersOk(s) && WaitersOk(s') && ErrorsOk(s) && RolesOk(s)
    requires Enabled(p, s, st) && s' == Apply(p, s, st)
    ensures Barren(p, s')
  {
    hide Apply, Enabled, WaitersOk, RolesOk, ErrorsOk, CanStillInstall;
    NobodyInstallsStep(p, s, st, s');
  }

  lemma OtherFertile(p: Params, s: State, st: Step, s': State, t: nat)
    requires WaitersOk(s) && ErrorsOk(s) && Grows(s, s') && Enabled(p, s, st) && s' == Apply(p, s, st)
    requires At(s, t) && At(s', t) && s'.threads[t] == s.threads[t] && t != Mover(s, st) && CanStillInstall(p, s', t)
    ensures CanStillInstall(p, s, t)
  {
    hide Apply, Enabled, Fertile, PcOk, Grows;
    assert PcOk(s, Pc(s, t)) && ThreadOk(s, t);
    InPlace(s, Pc(s, t));
    if !st.BeginCall? && !st.BeginClose? && At(s, st.t) { assert ThreadOk(s, st.t); }
    FertileBack(p, s, st, s', Pc(s, t), s.threads[t].budget > 0);
  }

  lemma NewIsBarren(p: Params, s: State, st: Step, s': State, t: nat)
    requires Enabled(p, s, st) && s' == Apply(p, s, st) && |s.threads| <= t < |s'.threads|
    ensures !CanStillInstall(p, s', t)
  {
    hide Apply, Enabled, Moved;
    StepThreads(p, s, st, s');
  }
}
