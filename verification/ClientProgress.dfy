/** A call takes a bounded number of steps in any run, whatever the others do. */
module ClientProgress {
  import opened Wrappers
  import opened ClientTypes
  import opened ConnTable
  import opened Client
  import opened ClientWaiters
  import opened ClientControl
  import opened ClientRoles
  import opened ClientTotals
  import opened ClientCounts
  import opened ClientRetry
  import opened ClientInvariant
  import opened ClientRuns
  import opened ClientTheorems
  import Handshake

  // --- how far a place is from the end ---

  /** The steps left of an opening with n frames to go, success assumed. */
  function Greetings(p: Params, n: nat): nat {
    if n == 0 then 5 else Greetings(p, n - 1) + 2 * Bound(p) + 12
  }

  /** The steps left from Greeting with the first k frames answered. */
  function FromFrame(p: Params, k: nat): nat {
    Greetings(p, if k < |Frames(p)| then |Frames(p)| - k else 0)
  }

  /** An upper bound on the steps a caller takes from a place, until the call ends,
      starts a dispatch of its own, or starts an establish attempt. */
  function Left(p: Params, pc: PC): nat {
    var n := Bound(p);
    match pc
    case AcqWait => 12
    case AcqCheck => 11
    case AcqReturn => 1
    case LiveTop => 10
    case ReadConn => 9
    case CheckAlive(_) => 8
    case LockWait => 7
    case Recheck => 6
    case ReRead => 5
    case ReCheckAlive(_) => 4
    case Redial(_) => 3
    case Dialing => FromFrame(p, 0) + n + 6
    case Greeting(_, k, _) => FromFrame(p, k)
    case SetInfo(_, _) => 4
    case Install(_) => 3
    case Unlock(_) => 2
    case Alloc(_, User) => 1
    case Register(_, User, _, _) => n + 15
    case Writing(_, User, _) => n + 14
    case Unregister(_, User, _) => n + 13
    case Awaiting(_, User, _) => 12
    case Leaving(_, User, _, _) => 11
    case Alloc(_, Opening(k)) => FromFrame(p, k + 1) + 2 * n + 11
    case Register(_, Opening(k), _, _) => FromFrame(p, k + 1) + 2 * n + 10
    case Writing(_, Opening(k), _) => FromFrame(p, k + 1) + 2 * n + 9
    case Unregister(_, Opening(_), _) => 2 * n + 8
    case Awaiting(_, Opening(k), _) => FromFrame(p, k + 1) + n + 7
    case Leaving(_, Opening(_), _, _) => n + 6
    case Kill(_, _, after) => n + 1 + AfterLeft(p, after)
    case Sending(_, _, drained, after) => |drained| + AfterLeft(p, after)
    case Release(_) => 1
    case _ => 0
  }

  /** From the end of a kill, that step included. */
  function AfterLeft(p: Params, after: After): nat {
    match after
    case AfterWrite(User) => 11
    case AfterWrite(Opening(_)) => Bound(p) + 6
    case AfterGreeting(_) => 4
    case _ => 1
  }

  /** What a dispatch of the caller's own command may cost, and what an establish attempt may. */
  function PerDispatch(p: Params): nat { Bound(p) + 15 }

  function PerAttempt(p: Params): nat { FromFrame(p, 0) + Bound(p) + 4 }

  function Gain(p: Params, s: State, st: Step): nat
    requires Enabled(p, s, st) && !st.BeginCall? && !st.BeginClose?
  {
    (if Enters(st, Pc(s, st.t)) then PerDispatch(p) else 0) + (if Spends(s, st) then PerAttempt(p) else 0)
  }

  // --- control flow ---

  lemma FrameStep(p: Params, k: nat)
    requires k < |Frames(p)|
    ensures FromFrame(p, k) == FromFrame(p, k + 1) + 2 * Bound(p) + 12
  {
    hide Frames, Bound;
  }

  lemma GateLeft(p: Params, s: State, pc: PC, g: GateAction)
    requires GateEnabled(p, s, pc, g) && !IsClosing(pc)
    ensures Left(p, GatePc(s, pc, g)) < Left(p, pc)
  {
    hide Bound, FromFrame;
  }

  lemma LiveLeft(p: Params, s: State, th: Thread, l: LiveAction)
    requires LiveEnabled(s, th.pc, l) && th.kind == Caller
    ensures Left(p, LivePc(p, s, th, l)) < Left(p, th.pc) + (if l.SpendBudget? && th.budget > 0 then PerAttempt(p) else 0)
  {
    hide Bound, Alive, FromFrame, Handshake.Opening, Handshake.Learned, Frames;
    if l.GreetNext? {
      if th.pc.k < |Frames(p)| { FrameStep(p, th.pc.k); }
      GreetedLeft(p, th.pc.k);
    }
  }

  lemma GreetedLeft(p: Params, k: nat)
    ensures k >= |Frames(p)| ==> FromFrame(p, k) == 5
  {
  }

  lemma AfterDispatchLeft(p: Params, th: Thread, c: nat, m: Mode, r: Outcome)
    ensures m.User? ==> Left(p, AfterDispatch(th, c, m, r)) <= 10
    ensures m.Opening? && r.Ok? ==> Left(p, AfterDispatch(th, c, m, r)) == FromFrame(p, m.k + 1)
    ensures m.Opening? && r.Err? ==> Left(p, AfterDispatch(th, c, m, r)) == Bound(p) + 5
  {
    hide Bound, FromFrame;
  }

  lemma DispatchLeft(p: Params, s: State, th: Thread, d: DispatchAction)
    requires DispatchEnabled(s, th.pc, d)
    ensures Left(p, DispatchPc(s, th, d))
      < Left(p, th.pc) + (if d.AllocId? && th.pc.m.User? then PerDispatch(p) else 0)
  {
    hide Bound, Alive, FromFrame, AfterDispatch, Received;
    match d {
      case RegisterWaiter => AfterDispatchLeft(p, th, th.pc.c, th.pc.m, Err(WriteFailed));
      case Receive => AfterDispatchLeft(p, th, th.pc.c, th.pc.m, Received(s.waiters[th.pc.w].chan.value));
      case RemoveOnLeave => AfterDispatchLeft(p, th, th.pc.c, th.pc.m, Err(th.pc.why));
      case _ =>
    }
  }

  lemma DeliveryLeft(p: Params, s: State, th: Thread, v: DeliveryAction)
    requires DeliveryEnabled(s, th.pc, v) && !IsReading(th.pc) && !IsClosing(th.pc)
    requires v.PoisonSwap? && th.pc.c < |s.conns| ==> |Drained(s.conns[th.pc.c].table)| <= Bound(p)
    ensures Left(p, DeliveryPc(p, s, th, v)) < Left(p, th.pc)
  {
    hide Bound, FromFrame, OnBody, Drained, AfterDispatch;
    if v.PoisonDone? && th.pc.after.AfterWrite? {
      AfterDispatchLeft(p, th, th.pc.c, th.pc.after.mode, Err(WriteFailed));
    }
  }

  /** Each step of a caller uses up at least one of those left. */
  lemma MoverLeft(p: Params, s: State, st: Step)
    requires Enabled(p, s, st) && !st.BeginCall? && !st.BeginClose?
    requires s.threads[st.t].kind == Caller && Suits(Caller, Pc(s, st.t))
    requires forall c: nat | c < |s.conns| :: |Drained(s.conns[c].table)| <= Bound(p)
    ensures Left(p, Moved(p, s, st).pc) < Left(p, Pc(s, st.t)) + Gain(p, s, st)
  {
    hide Left, GatePc, LivePc, DispatchPc, DeliveryPc, PerAttempt, PerDispatch, Bound, Drained;
    var th := s.threads[st.t];
    match st {
      case Gate(t, g) => GateLeft(p, s, th.pc, g);
      case Live(t, l) => LiveLeft(p, s, th, l);
      case Dispatch(t, d) => DispatchLeft(p, s, th, d);
      case Delivery(t, v) => DeliveryLeft(p, s, th, v);
    }
  }

  // --- what a poisoner can drain ---

  lemma DrainedIsBounded(p: Params, s: State, c: nat)
    requires WaitersOk(s) && RolesOk(s) && CountsOk(s) && s.permits <= Bound(p) && c < |s.conns|
    ensures |Drained(s.conns[c].table)| <= Bound(p)
  {
    hide CountsOk, RolesOk, Drained;
    var drained := Drained(s.conns[c].table);
    DrainedAreRegistered(s, c);
    var f := (w: nat) => if w < |s.waiters| then s.waiters[w].owner else 0;
    forall w | w in drained ensures f(w) in Owners(s) && Slot(Pc(s, f(w))) == Some(w) {
      assert IsRegistered(s, w);
    }
    forall w, x | w in drained && x in drained && f(w) == f(x) ensures w == x {
      assert IsRegistered(s, w) && IsRegistered(s, x);
    }
    Injection(drained, Owners(s), f);
    OwnersHavePermits(s);
    assert CountsOk(s);
    PermitsCounted(s);
  }

  lemma PermitsCounted(s: State)
    requires CountsOk(s)
    ensures s.permits == Total(Permit, s.threads)
  {
  }

  // --- over runs ---

  /** The i-th step of the run is one of thread t. */
  ghost predicate Steps(p: Params, run: seq<State>, i: nat, t: nat) {
    exists st :: Takes(p, run, i, st) && IsBy(st, t)
  }

  predicate IsBy(st: Step, t: nat) { !st.BeginCall? && !st.BeginClose? && st.t == t }

  /** How many of the first n steps are those of thread t. */
  ghost function Moves(p: Params, run: seq<State>, t: nat, n: nat): nat {
    if n == 0 then 0 else Moves(p, run, t, n - 1) + (if Steps(p, run, n - 1, t) then 1 else 0)
  }

  /** What the dispatches and attempts so far allow. */
  function Allowance(p: Params, th: Thread): nat {
    PerDispatch(p) * |th.tried| + PerAttempt(p) * th.establishes
  }

  lemma AllowanceMoves(p: Params, s: State, st: Step)
    requires Enabled(p, s, st) && !st.BeginCall? && !st.BeginClose?
    ensures Allowance(p, Moved(p, s, st)) == Allowance(p, s.threads[st.t]) + Gain(p, s, st)
  {
    hide Moved, PerDispatch, PerAttempt;
    MovedHistory(p, s, st);
    Distribute(PerDispatch(p), |s.threads[st.t].tried|);
    Distribute(PerAttempt(p), s.threads[st.t].establishes);
  }

  lemma Distribute(a: nat, b: nat)
    ensures a * (b + 1) == a * b + a
  {
  }

  lemma {:induction false} NotYetMoved(p: Params, run: seq<State>, t: nat, n: nat)
    requires IsRun(p, run) && n < |run| && !At(run[n], t)
    ensures Moves(p, run, t, n) == 0
  {
    hide Enabled, Apply, IsRun, Takes;
    if n > 0 {
      var st := StepOf(p, run, n - 1);
      TookStep(p, run, n - 1, st);
      StepThreads(p, run[n - 1], st, run[n]);
      NotYetMoved(p, run, t, n - 1);
      if Steps(p, run, n - 1, t) { MoverIsThere(p, run, n - 1, t); }
    }
  }

  lemma MoverIsThere(p: Params, run: seq<State>, i: nat, t: nat)
    requires Steps(p, run, i, t)
    ensures At(run[i], t)
  {
    hide Apply, GateEnabled, LiveEnabled, DispatchEnabled, DeliveryEnabled;
  }

  /** Every step of a call uses up some of what its dispatches and attempts allow. */
  lemma {:induction false} MovesAreAllowed(p: Params, run: seq<State>, t: nat, n: nat)
    requires IsRun(p, run) && n < |run| && At(run[n], t) && run[n].threads[t].kind == Caller
    ensures Moves(p, run, t, n) + Left(p, Pc(run[n], t)) <= 12 + Allowance(p, run[n].threads[t])
  {
    hide Enabled, Apply, IsRun, Moved, Left, Allowance, Suits, HoldsLock, Takes, IsBy;
    if n == 0 {
      InitHasNoCaller(p, run, t);
    } else {
      var s := run[n - 1];
      var st;
      if Steps(p, run, n - 1, t) { st := OwnStep(p, run, n - 1, t); } else { st := StepOf(p, run, n - 1); }
      TookStep(p, run, n - 1, st);
      StepThreads(p, s, st, run[n]);
      if !At(s, t) {
        NotYetMoved(p, run, t, n - 1);
        if Steps(p, run, n - 1, t) { MoverIsThere(p, run, n - 1, t); }
        StarterLeft(p, s, st);
      } else {
        SameKind(p, s, st, run[n], t);
        MovesAreAllowed(p, run, t, n - 1);
        ByMeansMover(st, t);
        if IsBy(st, t) { MoveIsAllowed(p, run, n - 1, st); }
      }
    }
  }

  lemma OwnStep(p: Params, run: seq<State>, i: nat, t: nat) returns (st: Step)
    requires Steps(p, run, i, t)
    ensures Takes(p, run, i, st) && IsBy(st, t)
  {
    hide Takes, IsBy;
    st :| Takes(p, run, i, st) && IsBy(st, t);
  }

  lemma ByMeansMover(st: Step, t: nat)
    ensures IsBy(st, t) <==> !st.BeginCall? && !st.BeginClose? && st.t == t
  {
  }

  lemma InitHasNoCaller(p: Params, run: seq<State>, t: nat)
    requires IsRun(p, run) && At(run[0], t)
    ensures run[0].threads[t].kind != Caller
  {
  }

  lemma SameKind(p: Params, s: State, st: Step, s': State, t: nat)
    requires Enabled(p, s, st) && s' == Apply(p, s, st) && At(s, t)
    ensures At(s', t) && s'.threads[t].kind == s.threads[t].kind
  {
    hide Enabled, Apply, Moved;
    StepThreads(p, s, st, s');
    if !st.BeginCall? && !st.BeginClose? { MovedHistory(p, s, st); }
  }

  lemma StarterLeft(p: Params, s: State, st: Step)
    ensures st.BeginCall? ==> Left(p, NewCaller(s, st.cmd).pc) <= 12
    ensures NEW_CLOSER.kind != Caller && NewReader(|s.conns|).kind != Caller
  {
    hide FromFrame, Bound;
  }

  lemma MoveIsAllowed(p: Params, run: seq<State>, i: nat, st: Step)
    requires IsRun(p, run) && i < |run| && Enabled(p, run[i], st) && !st.BeginCall? && !st.BeginClose?
    requires At(run[i], st.t) && run[i].threads[st.t].kind == Caller
    ensures var s := run[i];
      Left(p, Moved(p, s, st).pc) + 1 + Allowance(p, s.threads[st.t]) <= Left(p, Pc(s, st.t)) + Allowance(p, Moved(p, s, st))
  {
    hide IsRun, Moved, Left, Allowance, Drained, Bound, Gain, HoldsLock, Suits;
    var s := run[i];
    assert WaitersOk(s) && RolesOk(s) && CountsOk(s) && s.permits <= Bound(p) by {
      hide WaitersOk, RolesOk, CountsOk;
      RunKeepsInvariant(p, run, i);
    }
    assert RoleOk(s, st.t);
    forall c: nat | c < |s.conns| ensures |Drained(s.conns[c].table)| <= Bound(p) { DrainedIsBounded(p, s, c); }
    MoverLeft(p, s, st);
    AllowanceMoves(p, s, st);
  }

  /** With N calls in the run so far, no call has taken more steps than this. */
  lemma CallsAreBounded(p: Params, run: seq<State>, t: nat, n: nat)
    requires IsRun(p, run) && n < |run| && At(run[n], t) && run[n].threads[t].kind == Caller
    ensures Moves(p, run, t, n) <= 12 + PerDispatch(p) * (1 + REDIALS * run[n].begun) + PerAttempt(p) * REDIALS
  {
    hide IsRun, Left, PerDispatch, PerAttempt, RetriesOk, CountsOk, Moves;
    var th := run[n].threads[t];
    MovesAreAllowed(p, run, t, n);
    RunReaches(p, run, n);
    DispatchesAreBounded(p, run[n], t);
    InstallsAreBounded(p, run[n]);
    Larger(PerDispatch(p), |th.tried|, 1 + REDIALS * run[n].begun);
    Larger(PerAttempt(p), th.establishes, REDIALS);
  }

  lemma Larger(a: nat, b: nat, c: nat)
    requires b <= c
    ensures a * b <= a * c
  {
  }

  // --- nobody is stuck ---

  /** A step that only the end of the caller's context brings about. */
  predicate IsCut(st: Step) { (st.Gate? && st.g.AcqCancel?) || (st.Dispatch? && st.d.ContextEnds?) }

  /** Thread t has a step of its own to take, whatever its context does. */
  ghost predicate CanMove(p: Params, s: State, t: nat) {
    exists st :: Enabled(p, s, st) && IsBy(st, t) && !IsCut(st)
  }

  /** The step of a thread that neither waits for another nor sends to a waiter. */
  function OwnAction(s: State, t: nat): Step
    requires At(s, t)
  {
    match Pc(s, t)
    case AcqWait => Gate(t, if s.gateClosed then AcqClosed else AcqTake)
    case AcqCheck => Gate(t, AcqDecide)
    case AcqReturn => Gate(t, AcqGiveBack)
    case Release(_) => Gate(t, ReleasePermit)
    case CloseGate => Gate(t, ShutGate)
    case CloseTake => Gate(t, TakeConn)
    case LiveTop => Live(t, CheckClosed)
    case ReadConn => Live(t, LoadConn)
    case CheckAlive(_) => Live(t, DecideAlive)
    case LockWait => Live(t, Lock)
    case Recheck => Live(t, CheckClosedAgain)
    case ReRead => Live(t, LoadConnAgain)
    case ReCheckAlive(_) => Live(t, DecideAliveAgain)
    case Redial(_) => Live(t, SpendBudget)
    case Dialing => Live(t, DialSucceeds)
    case Greeting(_, _, _) => Live(t, GreetNext)
    case SetInfo(_, _) => Live(t, StoreInfo)
    case Install(_) => Live(t, InstallConn)
    case Unlock(_) => Live(t, UnlockRedial)
    case Alloc(_, _) => Dispatch(t, AllocId)
    case Register(_, _, _, _) => Dispatch(t, RegisterWaiter)
    case Writing(_, _, _) => Dispatch(t, WriteSucceeds)
    case Unregister(_, _, _) => Dispatch(t, RemoveAfterWrite)
    case Awaiting(_, _, _) => Dispatch(t, Receive)
    case Leaving(_, _, _, _) => Dispatch(t, RemoveOnLeave)
    case Kill(_, _, _) => Delivery(t, PoisonSwap)
    case Sending(_, _, _, _) => Delivery(t, PoisonDone)
    case Reading(_) => Delivery(t, ReadFails(ConnectionError))
    case Delivering(_, _, _) => Delivery(t, DeliverResponse)
    case Dropping(_) => Delivery(t, CountDrop)
    case Done(_) => Gate(t, ReleasePermit)
  }

  predicate Waits(pc: PC) { pc.AcqWait? || pc.LockWait? || pc.Awaiting? }

  lemma ActsOnItsOwn(p: Params, s: State, t: nat)
    requires At(s, t) && !Pc(s, t).Done? && !Waits(Pc(s, t))
    requires Pc(s, t).AcqReturn? || Pc(s, t).Release? ==> s.permits > 0
    requires Pc(s, t).Sending? ==> Pc(s, t).drained == {}
    requires Pc(s, t).Delivering? ==> CanSend(s, Pc(s, t).w)
    ensures Enabled(p, s, OwnAction(s, t)) && IsBy(OwnAction(s, t), t) && !IsCut(OwnAction(s, t))
  {
  }

  lemma WaitIsOver(p: Params, s: State, t: nat)
    requires At(s, t) && Waits(Pc(s, t))
    requires Pc(s, t).AcqWait? ==> s.gateClosed || s.permits < Bound(p)
    requires Pc(s, t).LockWait? ==> s.redialer == None
    requires Pc(s, t).Awaiting? ==> Pc(s, t).w < |s.waiters| && s.waiters[Pc(s, t).w].chan.Some?
    ensures Enabled(p, s, OwnAction(s, t)) && IsBy(OwnAction(s, t), t) && !IsCut(OwnAction(s, t))
  {
  }

  /** Whoever is not finished and waits for nobody can take a step. */
  lemma WorkersMove(p: Params, s: State, t: nat)
    requires Reachable(p, s) && At(s, t) && !Pc(s, t).Done? && !Waits(Pc(s, t))
    ensures CanMove(p, s, t)
  {
    hide Reachable, Enabled, IsBy, IsCut, OwnAction, CanSend;
    if Pc(s, t).Sending? && Pc(s, t).drained != {} {
      var w :| w in Pc(s, t).drained;
      SendsNeverBlock(p, s, t, w);
      IsASend(t, w);
      assert CanMove(p, s, t);
    } else {
      if Pc(s, t).Delivering? { DeliveryIsFree(p, s, t); }
      PermitIsThere(p, s, t);
      ActsOnItsOwn(p, s, t);
    }
  }

  lemma IsASend(t: nat, w: nat)
    ensures IsBy(Delivery(t, PoisonSend(w)), t) && !IsCut(Delivery(t, PoisonSend(w)))
  {
  }

  lemma DeliveryIsFree(p: Params, s: State, t: nat)
    requires Reachable(p, s) && At(s, t) && Pc(s, t).Delivering?
    ensures CanSend(s, Pc(s, t).w)
  {
    hide Reachable;
    SendsNeverBlock(p, s, t, Pc(s, t).w);
  }

  lemma PermitIsThere(p: Params, s: State, t: nat)
    requires Reachable(p, s) && At(s, t)
    ensures Pc(s, t).AcqReturn? || Pc(s, t).Release? ==> s.permits > 0
  {
    hide Reachable;
    ReleaseNeverBlocks(p, s, t);
  }

  /** Who thread t waits for: a caller with a permit, or the holder of the re-dial lock. */
  ghost predicate WaitsFor(s: State, t: nat, u: nat) {
    At(s, t) && At(s, u) && !Pc(s, u).Done?
    && ((Pc(s, t).AcqWait? && Permit(s.threads[u]) == 1 && !Pc(s, u).AcqWait?)
        || (Pc(s, t).LockWait? && s.redialer == Some(u) && !Pc(s, u).AcqWait? && !Pc(s, u).LockWait?))
  }

  /** No deadlock: a thread that is not finished can take a step, or waits for the
      answer to its frame, or for a permit or the lock, and then its holder waits for
      neither the gate nor, if it holds the lock, the lock. */
  lemma NobodyIsStuck(p: Params, s: State, t: nat)
    requires Reachable(p, s) && At(s, t) && !Pc(s, t).Done?
    ensures CanMove(p, s, t) || Pc(s, t).Awaiting? || exists u: nat :: WaitsFor(s, t, u)
  {
    hide Reachable, Enabled, IsBy, IsCut, OwnAction, Permit, HoldsLock;
    assert RolesOk(s) && CountsOk(s) && s.permits <= Bound(p) by { hide RolesOk, CountsOk; ReachableKeepsInvariant(p, s); }
    if !Waits(Pc(s, t)) {
      WorkersMove(p, s, t);
    } else if Pc(s, t).AcqWait? && (s.gateClosed || s.permits < Bound(p)) {
      WaitIsOver(p, s, t);
    } else if Pc(s, t).AcqWait? {
      hide Total;
      BoundIsPositive(p);
      var u := SomeoneHas(Permit, s.threads);
      HoldersWork(s.threads[u]);
      assert WaitsFor(s, t, u);
    } else if Pc(s, t).LockWait? && s.redialer == None {
      WaitIsOver(p, s, t);
    } else if Pc(s, t).LockWait? {
      LockersWork(Pc(s, s.redialer.value));
      assert WaitsFor(s, t, s.redialer.value);
    }
  }

  lemma BoundIsPositive(p: Params)
    ensures Bound(p) > 0
  {
  }

  lemma HoldersWork(th: Thread)
    requires Permit(th) > 0
    ensures Permit(th) == 1 && !th.pc.AcqWait? && !th.pc.Done?
  {
  }

  lemma LockersWork(pc: PC)
    requires HoldsLock(pc)
    ensures !pc.AcqWait? && !pc.LockWait? && !pc.Done?
  {
  }

  lemma {:induction false} SomeoneHas(f: Thread -> nat, ths: seq<Thread>) returns (u: nat)
    requires Total(f, ths) > 0
    ensures u < |ths| && f(ths[u]) > 0
  {
    if f(ths[0]) > 0 {
      u := 0;
    } else {
      u := SomeoneHas(f, ths[1..]);
      u := u + 1;
    }
  }

  /** As long as some thread is not finished, some thread can move or awaits an answer. */
  lemma SomebodyMoves(p: Params, s: State, t: nat) returns (u: nat)
    requires Reachable(p, s) && At(s, t) && !Pc(s, t).Done?
    ensures At(s, u) && (CanMove(p, s, u) || Pc(s, u).Awaiting?)
  {
    hide Reachable, CanMove, Permit;
    u := t;
    NobodyIsStuck(p, s, u);
    if !CanMove(p, s, u) && !Pc(s, u).Awaiting? {
      u :| WaitsFor(s, t, u);
      NobodyIsStuck(p, s, u);
      if !CanMove(p, s, u) && !Pc(s, u).Awaiting? {
        var v: nat :| WaitsFor(s, u, v);
        NobodyIsStuck(p, s, v);
        u := v;
      }
    }
  }
}
