/**
 What becomes of a Close from any moment on: after every Close has returned, the
 client can have a live connection exactly if a re-dial can still succeed now, or
 one is installed and alive that no Close is yet to take.
 */
module ClientFinality {
  import opened Wrappers
  import opened ClientTypes
  import opened ConnTable
  import opened Client
  import opened ClientWaiters
  import opened ClientHistory
  import opened ClientControl
  import opened ClientErrors
  import opened ClientRoles
  import opened ClientLife
  import opened ClientInvariant
  import opened ClientRuns
  import opened ClientBarren
  import opened ClientRevival
  import Handshake

  /** Some Close has yet to take the current connection. */
  ghost predicate ClosePending(s: State) { exists u: nat :: YetToTake(s, u) }

  predicate YetToTake(s: State, u: nat) { At(s, u) && (Pc(s, u).CloseGate? || Pc(s, u).CloseTake?) }

  // --- what Close is shutting ---

  /** The connection a Close is shutting. */
  function Shuts(pc: PC): Option<nat> {
    match pc
    case Kill(c, _, AfterClosing) => Some(c)
    case Sending(c, _, _, AfterClosing) => Some(c)
    case _ => None
  }

  /** It has been installed, and is not current any more. */
  ghost predicate ShutOk(s: State, u: nat)
    requires At(s, u)
  {
    var c := Shuts(Pc(s, u));
    c.Some? ==> c.value < |s.conns| && s.conns[c.value].ordinal.Some? && s.current != c
  }

  ghost predicate ShutsOk(s: State) { forall u: nat | u < |s.threads| :: ShutOk(s, u) }

  lemma ShutMoves(p: Params, s: State, st: Step)
    requires Enabled(p, s, st) && !st.BeginCall? && !st.BeginClose?
    ensures var c := Shuts(Moved(p, s, st).pc);
      c.Some? ==> Shuts(Pc(s, st.t)) == c || (st.Gate? && st.g.TakeConn? && s.current == c)
    ensures Installs(st) ==> Shuts(Moved(p, s, st).pc) == None
  {
    hide OnBody, Alive, Received, Frames, Handshake.Opening, Handshake.Learned;
  }

  lemma ShutStep(p: Params, s: State, st: Step, s': State)
    requires ShutsOk(s) && InstalledOk(s) && Enabled(p, s, st) && s' == Apply(p, s, st) && Grows(s, s')
    ensures ShutsOk(s')
  {
    hide Apply, Enabled, Moved, InstalledOk;
    StepThreads(p, s, st, s');
    StepFields(p, s, st, s');
    forall u: nat | u < |s'.threads| ensures ShutOk(s', u) {
      if u < |s.threads| {
        assert ShutOk(s, u);
        if !st.BeginCall? && !st.BeginClose? && u == st.t { ShutMoves(p, s, st); }
        if s.current.Some? { CurrentIsInstalled(s); }
        if Installs(st) { InstallerIsNew(p, s, st); }
        var c := Shuts(Pc(s', u));
        if c.Some? && c.value < |s.conns| { assert ConnGrows(s.conns[c.value], s'.conns[c.value]); }
      }
    }
  }

  lemma CurrentIsInstalled(s: State)
    requires InstalledOk(s) && s.current.Some?
    ensures s.current.value < |s.conns| && s.conns[s.current.value].ordinal.Some?
  {
    assert IsKth(s, |s.installed| - 1);
  }

  lemma InstallerIsNew(p: Params, s: State, st: Step)
    requires InstalledOk(s) && Enabled(p, s, st) && Installs(st)
    ensures Pc(s, st.t).c < |s.conns| && s.conns[Pc(s, st.t).c].ordinal == None
  {
    assert OpeningOk(s, st.t);
  }

  lemma {:induction false} ShutsHold(p: Params, run: seq<State>, n: nat)
    requires IsRun(p, run) && n < |run|
    ensures ShutsOk(run[n])
  {
    hide Apply, Enabled, IsRun, InstalledOk, ShutsOk;
    if n == 0 {
      NothingShutAtStart(p, run);
    } else {
      ShutsHold(p, run, n - 1);
      var st := StepOf(p, run, n - 1);
      assert InstalledOk(run[n - 1]) by { RunKeepsInvariant(p, run, n - 1); }
      StepGrows(p, run[n - 1], st, run[n]);
      ShutStep(p, run[n - 1], st, run[n]);
    }
  }

  lemma NothingShutAtStart(p: Params, run: seq<State>)
    requires IsRun(p, run)
    ensures ShutsOk(run[0])
  {
  }

  // --- what the steps of a Close leave alone ---

  lemma CloserSteps(p: Params, s: State, st: Step)
    requires Enabled(p, s, st) && !st.BeginCall? && !st.BeginClose? && IsClosing(Pc(s, st.t))
    ensures (st.Gate? && (st.g.ShutGate? || st.g.TakeConn?))
      || (st.Delivery? && Shuts(Pc(s, st.t)).Some? && (st.v.PoisonSwap? || st.v.PoisonSend? || st.v.PoisonDone?))
  {
  }

  lemma GateLeavesWaiters(p: Params, s: State, t: nat, g: GateAction)
    requires At(s, t) && GateEnabled(p, s, Pc(s, t), g)
    ensures ApplyGate(p, s, t, g).waiters == s.waiters
  {
    GateFields(p, s, t, g);
  }

  lemma SwapLeavesWaiter(s: State, t: nat, w: nat)
    requires WaitersOk(s) && At(s, t) && Pc(s, t).Kill? && w < |s.waiters| && s.waiters[w].conn != Pc(s, t).c
    ensures w < |DoPoisonSwap(s, t).waiters| && DoPoisonSwap(s, t).waiters[w] == s.waiters[w]
  {
    hide Drained, PoisonedConn;
    if Pc(s, t).c < |s.conns| { DrainedAreRegistered(s, Pc(s, t).c); }
  }

  lemma SendLeavesWaiter(p: Params, s: State, t: nat, v: DeliveryAction, w: nat)
    requires At(s, t) && DeliveryEnabled(s, Pc(s, t), v) && PcOk(s, Pc(s, t)) && w < |s.waiters|
    requires (v.PoisonSend? && s.waiters[w].conn != Pc(s, t).c) || v.PoisonDone?
    ensures w < |ApplyDelivery(p, s, t, v).waiters| && ApplyDelivery(p, s, t, v).waiters[w] == s.waiters[w]
  {
    hide AfterKill, CleanPc;
  }

  /** A waiter of a connection that is not being shut keeps its place and its channel. */
  lemma CloserLeavesWaiter(p: Params, s: State, st: Step, s': State, w: nat)
    requires WaitersOk(s) && ErrorsOk(s) && Enabled(p, s, st) && s' == Apply(p, s, st)
    requires !st.BeginCall? && !st.BeginClose? && IsClosing(Pc(s, st.t)) && w < |s.waiters|
    requires Shuts(Pc(s, st.t)) != Some(s.waiters[w].conn)
    ensures w < |s'.waiters| && s'.waiters[w] == s.waiters[w]
  {
    hide ApplyGate, ApplyLive, ApplyDispatch, DoPoisonSwap, LiveEnabled, DispatchEnabled, GateEnabled, WaitersOk, ErrorsOk, PcOk;
    hide DeliveryPc, Act, Send;
    CloserSteps(p, s, st);
    PlaceIsOk(s, st.t);
    match st {
      case Gate(t, g) => GateLeavesWaiters(p, s, t, g);
      case Delivery(t, v) =>
        if v.PoisonSwap? { SwapLeavesWaiter(s, t, w); } else { SendLeavesWaiter(p, s, t, v, w); }
      case _ =>
    }
  }

  lemma PlaceIsOk(s: State, t: nat)
    requires ErrorsOk(s) && At(s, t)
    ensures PcOk(s, Pc(s, t))
  {
  }

  lemma CloserLeavesConn(p: Params, s: State, st: Step, s': State, c: nat)
    requires Enabled(p, s, st) && s' == Apply(p, s, st) && !st.BeginCall? && !st.BeginClose? && IsClosing(Pc(s, st.t))
    requires Alive(s, c) && Shuts(Pc(s, st.t)) != Some(c)
    ensures Alive(s', c)
  {
    hide Apply, Frames, Adds;
    CloserSteps(p, s, st);
    StepConns(p, s, st, s');
    assert FateIs(p, s, st, s', c);
  }

  lemma ReaderStays(s: State, s': State, u: nat, c: nat)
    requires HasReader(s, c) && OthersStay(s, s', u) && At(s, u) && IsClosing(Pc(s, u))
    ensures HasReader(s', c)
  {
    var r: nat :| Reads(s, r, c);
    assert Reads(s', r, c);
  }

  lemma BroughtStays(s: State, s': State, u: nat, c: nat, w: nat)
    requires IsBrought(s, c, w) && OthersStay(s, s', u) && At(s, u) && IsClosing(Pc(s, u))
    ensures IsBrought(s', c, w)
  {
    var r: nat :| Brings(s, r, c, w);
    assert Brings(s', r, c, w);
  }

  lemma PromiseIsKept(p: Params, s: State, s': State, u: nat, c: nat, k: nat, w: nat)
    requires Promising(p, s, c, k, w) && OthersStay(s, s', u) && At(s, u) && IsClosing(Pc(s, u))
    requires w < |s.waiters| && w < |s'.waiters| && s'.waiters[w] == s.waiters[w]
    ensures Promising(p, s', c, k, w)
  {
    hide Frames, IsBrought, HasReader, OthersStay;
    if HasReader(s, c) { ReaderStays(s, s', u, c); }
    if IsBrought(s, c, w) { BroughtStays(s, s', u, c, w); }
  }

  /** What a fertile place depends on. */
  lemma FertileStays(p: Params, s: State, s': State, pc: PC, budget: bool)
    requires Fertile(p, s, pc, budget)
    requires Opens(pc).Some? ==>
      var c := Opens(pc).value;
      && (Alive(s, c) ==> Alive(s', c)) && (HasReader(s, c) ==> HasReader(s', c))
      && (pc.Writing? || pc.Awaiting? ==> Promising(p, s, c, pc.m.k, pc.w) ==> Promising(p, s', c, pc.m.k, pc.w))
    ensures Fertile(p, s', pc, budget)
  {
    hide Promising, HasReader, Frames, Alive, Resumes, AsHandshakeError;
  }

  /** A re-dial that can succeed still can after a step of a Close. */
  lemma CloserSparesRedial(p: Params, s: State, st: Step, s': State, t: nat)
    requires WaitersOk(s) && ErrorsOk(s) && InstalledOk(s) && ShutsOk(s) && Enabled(p, s, st) && s' == Apply(p, s, st)
    requires !st.BeginCall? && !st.BeginClose? && IsClosing(Pc(s, st.t)) && OthersStay(s, s', st.t)
    requires CanStillInstall(p, s, t)
    ensures CanStillInstall(p, s', t)
  {
    assert At(s, st.t);
    ClosersAreBarren(p, s, Pc(s, st.t), s.threads[st.t].budget > 0);
    hide Apply, Enabled, WaitersOk, ErrorsOk, InstalledOk, ShutsOk, Promising, HasReader, Frames, Alive, Fertile, IsClosing;
    var pc, u := Pc(s, t), st.t;
    OpenedIsNotShut(s, t, u);
    if Opens(pc).Some? {
      var c := Opens(pc).value;
      if Alive(s, c) { CloserLeavesConn(p, s, st, s', c); }
      if HasReader(s, c) { ReaderStays(s, s', u, c); }
      if (pc.Writing? || pc.Awaiting?) && Promising(p, s, c, pc.m.k, pc.w) {
        SlotIsOnConn(s, t);
        CloserLeavesWaiter(p, s, st, s', pc.w);
        PromiseIsKept(p, s, s', u, c, pc.m.k, pc.w);
      }
    }
    FertileStays(p, s, s', pc, s.threads[t].budget > 0);
  }

  lemma ClosersAreBarren(p: Params, s: State, pc: PC, budget: bool)
    requires IsClosing(pc)
    ensures !Fertile(p, s, pc, budget)
  {
  }

  lemma SlotIsOnConn(s: State, t: nat)
    requires WaitersOk(s) && At(s, t) && (Pc(s, t).Writing? || Pc(s, t).Awaiting?)
    ensures Pc(s, t).w < |s.waiters| && s.waiters[Pc(s, t).w].conn == Pc(s, t).c
  {
    assert ThreadOk(s, t);
  }

  /** What is being opened was never installed, so no Close is shutting it. */
  lemma OpenedIsNotShut(s: State, t: nat, u: nat)
    requires InstalledOk(s) && ShutsOk(s) && At(s, t) && At(s, u)
    ensures Opens(Pc(s, t)).Some? ==> Shuts(Pc(s, u)) != Opens(Pc(s, t))
  {
    assert OpeningOk(s, t) && ShutOk(s, u);
  }

  // --- a Close runs to its end ---

  /** What reaching s' from s by steps of Closes leaves as it was. */
  ghost predicate Spared(p: Params, s: State, s': State, t: nat) {
    && |s'.threads| == |s.threads|
    && (forall u: nat | u < |s.threads| :: s'.threads[u].kind == s.threads[u].kind)
    && (CanStillInstall(p, s, t) ==> CanStillInstall(p, s', t))
    && (AliveOption(s, s.current) && !ClosePending(s) ==> AliveOption(s', s'.current) && !ClosePending(s'))
  }

  lemma CloserSparesCurrent(p: Params, s: State, st: Step, s': State)
    requires ShutsOk(s) && Enabled(p, s, st) && s' == Apply(p, s, st) && !st.BeginCall? && !st.BeginClose?
    requires OthersStay(s, s', st.t) && IsClosing(Pc(s, st.t)) && At(s', st.t) && s'.threads[st.t] == Moved(p, s, st)
    requires AliveOption(s, s.current) && !ClosePending(s)
    ensures AliveOption(s', s'.current) && !ClosePending(s')
  {
    assert At(s, st.t);
    hide Apply, Moved, Enabled, Alive;
    CloserSteps(p, s, st);
    StepFields(p, s, st, s');
    assert ShutOk(s, st.t) && !YetToTake(s, st.t);
    ShutterGoesOn(p, s, st);
    CloserLeavesConn(p, s, st, s', s.current.value);
    forall u: nat ensures !YetToTake(s', u) {
      assert !YetToTake(s, u);
    }
  }

  lemma ShutterGoesOn(p: Params, s: State, st: Step)
    requires Enabled(p, s, st) && !st.BeginCall? && !st.BeginClose? && IsClosing(Pc(s, st.t))
    requires !Pc(s, st.t).CloseGate? && !Pc(s, st.t).CloseTake?
    ensures st.Delivery? && !Moved(p, s, st).pc.CloseGate? && !Moved(p, s, st).pc.CloseTake?
  {
  }

  /** One step of a Close. */
  lemma CloserGoes(p: Params, run: seq<State>, s: State, st: Step, t: nat) returns (longer: seq<State>, s': State)
    requires Here(p, run, s) && Enabled(p, s, st) && !st.BeginCall? && !st.BeginClose? && IsClosing(Pc(s, st.t))
    ensures run <= longer && Here(p, longer, s') && OthersStay(s, s', st.t) && Spared(p, s, s', t)
    ensures At(s', st.t) && s'.threads[st.t] == Moved(p, s, st)
  {
    assert At(s, st.t);
    hide IsRun, Apply, Moved, Enabled, Spared, Quietly, IsClosing, SameAlive;
    ClosersDialNothing(p, s, st);
    longer, s' := ClientRevival.Go(p, run, s, st);
    CloserSpares(p, run, s, st, s', t);
  }

  lemma ClosersDialNothing(p: Params, s: State, st: Step)
    requires Enabled(p, s, st) && !st.BeginCall? && !st.BeginClose? && IsClosing(Pc(s, st.t))
    ensures !Dials(st)
  {
  }

  lemma HoldsHere(p: Params, run: seq<State>, s: State)
    requires Here(p, run, s)
    ensures WaitersOk(s) && ErrorsOk(s) && InstalledOk(s) && ShutsOk(s)
  {
    hide IsRun, ShutsOk, WaitersOk, ErrorsOk, InstalledOk;
    ShutsHold(p, run, |run| - 1);
    RunKeepsInvariant(p, run, |run| - 1);
  }

  lemma KindsStay(s: State, s': State, t: nat)
    requires OthersStay(s, s', t) && At(s, t) && At(s', t) && s'.threads[t].kind == s.threads[t].kind
    ensures |s'.threads| == |s.threads| && forall u: nat | u < |s.threads| :: s'.threads[u].kind == s.threads[u].kind
  {
  }

  lemma CloserSpares(p: Params, run: seq<State>, s: State, st: Step, s': State, t: nat)
    requires Here(p, run, s) && Enabled(p, s, st) && !st.BeginCall? && !st.BeginClose? && IsClosing(Pc(s, st.t))
    requires s' == Apply(p, s, st) && OthersStay(s, s', st.t) && At(s', st.t) && s'.threads[st.t] == Moved(p, s, st)
    ensures Spared(p, s, s', t)
  {
    assert At(s, st.t);
    hide IsRun, Apply, Moved, Enabled, ShutsOk, WaitersOk, ErrorsOk, InstalledOk, CanStillInstall, ClosePending, Alive, IsClosing;
    MovedKeeps(p, s, st);
    HoldsHere(p, run, s);
    hide Here, OthersStay;
    KindsStay(s, s', st.t);
    if CanStillInstall(p, s, t) { CloserSparesRedial(p, s, st, s', t); }
    if AliveOption(s, s.current) && !ClosePending(s) { CloserSparesCurrent(p, s, st, s'); }
  }

  lemma FinishSending(p: Params, run: seq<State>, s: State, u: nat, t: nat) returns (longer: seq<State>, s': State)
    requires Here(p, run, s) && At(s, u) && Pc(s, u).Sending? && Pc(s, u).after == AfterClosing
    ensures run <= longer && Here(p, longer, s') && OthersStay(s, s', u) && Spared(p, s, s', t) && Pc(s', u).Done?
    decreases |Pc(s, u).drained|
  {
    hide IsRun, Apply, Spared;
    if Pc(s, u).drained != {} {
      var w :| w in Pc(s, u).drained;
      DrainedIsFree(p, run, s, u, w);
      var next, s1 := CloserGoes(p, run, s, Delivery(u, PoisonSend(w)), t);
      longer, s' := FinishSending(p, next, s1, u, t);
      SparedOn(p, s, s1, s', t);
    } else {
      longer, s' := CloserGoes(p, run, s, Delivery(u, PoisonDone), t);
    }
  }

  lemma SparedOn(p: Params, s: State, s1: State, s2: State, t: nat)
    requires Spared(p, s, s1, t) && Spared(p, s1, s2, t)
    ensures Spared(p, s, s2, t)
  {
    hide CanStillInstall, Alive, ClosePending;
  }

  lemma FinishTaking(p: Params, run: seq<State>, s: State, u: nat, t: nat) returns (longer: seq<State>, s': State)
    requires Here(p, run, s) && At(s, u) && Pc(s, u).CloseTake?
    ensures run <= longer && Here(p, longer, s') && OthersStay(s, s', u) && Spared(p, s, s', t) && Pc(s', u).Done?
  {
    hide IsRun, Apply, Spared, Drained;
    var next, s1 := CloserGoes(p, run, s, Gate(u, TakeConn), t);
    if Pc(s1, u).Done? {
      longer, s' := next, s1;
    } else {
      var swapped, s2 := CloserGoes(p, next, s1, Delivery(u, PoisonSwap), t);
      SparedOn(p, s, s1, s2, t);
      longer, s' := FinishSending(p, swapped, s2, u, t);
      SparedOn(p, s, s2, s', t);
    }
  }

  lemma FinishCloser(p: Params, run: seq<State>, s: State, u: nat, t: nat) returns (longer: seq<State>, s': State)
    requires Here(p, run, s) && At(s, u) && IsClosing(Pc(s, u))
    ensures run <= longer && Here(p, longer, s') && OthersStay(s, s', u) && Spared(p, s, s', t) && Pc(s', u).Done?
  {
    hide IsRun, Apply, Spared, Drained;
    match Pc(s, u) {
      case CloseGate =>
        var next, s1 := CloserGoes(p, run, s, Gate(u, ShutGate), t);
        longer, s' := FinishTaking(p, next, s1, u, t);
        SparedOn(p, s, s1, s', t);
      case CloseTake => longer, s' := FinishTaking(p, run, s, u, t);
      case Kill(_, _, _) =>
        var next, s1 := CloserGoes(p, run, s, Delivery(u, PoisonSwap), t);
        longer, s' := FinishSending(p, next, s1, u, t);
        SparedOn(p, s, s1, s', t);
      case _ => longer, s' := FinishSending(p, run, s, u, t);
    }
  }

  /** The first k threads that are Closes run to their end. */
  lemma {:induction false} FinishClosers(p: Params, run: seq<State>, s: State, k: nat, t: nat)
    returns (longer: seq<State>, s': State)
    requires Here(p, run, s) && k <= |s.threads|
    ensures run <= longer && Here(p, longer, s') && Spared(p, s, s', t)
    ensures forall u: nat | u < k && s'.threads[u].kind == Closer :: Pc(s', u).Done?
    decreases k
  {
    hide IsRun, Apply, Suits, HoldsLock, CanStillInstall, Alive, ClosePending;
    if k == 0 {
      longer, s' := run, s;
    } else {
      var next, s1 := FinishClosers(p, run, s, k - 1, t);
      if s1.threads[k - 1].kind == Closer && !Pc(s1, k - 1).Done? {
        CloserIsClosing(p, next, s1, k - 1);
        longer, s' := FinishCloser(p, next, s1, k - 1, t);
        SparedOn(p, s, s1, s', t);
      } else {
        longer, s' := next, s1;
      }
    }
  }

  lemma CloserIsClosing(p: Params, run: seq<State>, s: State, u: nat)
    requires Here(p, run, s) && At(s, u) && s.threads[u].kind == Closer && !Pc(s, u).Done?
    ensures IsClosing(Pc(s, u))
  {
    hide IsRun;
    assert RolesOk(s) by { hide RolesOk; RunKeepsInvariant(p, run, |run| - 1); }
    assert RoleOk(s, u);
  }

  // --- nothing alive ---

  /** Nobody can install, and what is alive is to be taken. */
  ghost predicate Doomed(p: Params, s: State) {
    NobodyInstalls(p, s) && (AliveOption(s, s.current) ==> ClosePending(s))
  }

  lemma DoomedStep(p: Params, s: State, st: Step, s': State)
    requires Doomed(p, s) && WaitersOk(s) && WaitersOk(s') && ErrorsOk(s) && RolesOk(s)
    requires Enabled(p, s, st) && s' == Apply(p, s, st)
    ensures Doomed(p, s')
  {
    hide Apply, Enabled, Moved, WaitersOk, RolesOk, ErrorsOk, CanStillInstall, Alive;
    NobodyInstallsStep(p, s, st, s');
    if AliveOption(s', s'.current) {
      StepFields(p, s, st, s');
      StepThreads(p, s, st, s');
      var u: nat :| YetToTake(s, u);
      if !st.BeginCall? && !st.BeginClose? && st.t == u { TakerMoves(p, s, st); }
      assert YetToTake(s', u);
    }
  }

  lemma TakerMoves(p: Params, s: State, st: Step)
    requires Enabled(p, s, st) && !st.BeginCall? && !st.BeginClose? && YetToTake(s, st.t)
    ensures Moved(p, s, st).pc.CloseTake? || (st.Gate? && st.g.TakeConn?)
  {
  }

  lemma {:induction false} DoomLasts(p: Params, run: seq<State>, i: nat, j: nat)
    requires IsRun(p, run) && i <= j < |run| && Doomed(p, run[i])
    ensures Doomed(p, run[j])
  {
    hide Apply, Enabled, IsRun, Doomed, WaitersOk, ErrorsOk, RolesOk;
    if i < j {
      DoomLasts(p, run, i, j - 1);
      assert WaitersOk(run[j - 1]) && ErrorsOk(run[j - 1]) && RolesOk(run[j - 1]) by { RunKeepsInvariant(p, run, j - 1); }
      assert WaitersOk(run[j]) by { RunKeepsInvariant(p, run, j); }
      var st := StepOf(p, run, j - 1);
      DoomedStep(p, run[j - 1], st, run[j]);
    }
  }

  lemma NonePending(s: State)
    requires RolesOk(s) && ClosersDone(s)
    ensures !ClosePending(s)
  {
    forall u: nat ensures !YetToTake(s, u) {
      if At(s, u) { assert RoleOk(s, u); }
    }
  }

  /** Every Close has returned, and yet the client has a live connection. */
  ghost predicate Survives(p: Params, run: seq<State>, longer: seq<State>) {
    Revived(p, run, longer) && ClosersDone(longer[|longer| - 1])
  }

  /** From any moment after Close was called, even its first: a live connection can
      outlive every Close exactly if some re-dial can still install one, or one is
      installed and alive that every Close has left behind. */
  lemma CloseStaysFinalIff(p: Params, run: seq<State>, s: State)
    requires Here(p, run, s)
    ensures (exists longer :: Survives(p, run, longer))
      <==> (exists t: nat :: CanStillInstall(p, s, t)) || (AliveOption(s, s.current) && !ClosePending(s))
  {
    hide IsRun, ClosersDone, CanStillInstall, Alive, ClosePending;
    if exists t: nat :: CanStillInstall(p, s, t) {
      var t: nat :| CanStillInstall(p, s, t);
      var longer := SurvivorOf(p, run, s, t);
    } else if AliveOption(s, s.current) && !ClosePending(s) {
      var longer := SurvivorOf(p, run, s, 0);
    } else {
      forall longer ensures !Survives(p, run, longer) {
        if run <= longer && IsRun(p, longer) && |longer| > 0 { Dies(p, run, s, longer); }
      }
    }
  }

  lemma SurvivorOf(p: Params, run: seq<State>, s: State, t: nat) returns (longer: seq<State>)
    requires Here(p, run, s) && (CanStillInstall(p, s, t) || (AliveOption(s, s.current) && !ClosePending(s)))
    ensures Survives(p, run, longer)
  {
    hide IsRun, CanStillInstall, Alive, ClosePending;
    var closed, s' := FinishClosers(p, run, s, |s.threads|, t);
    assert ClosersDone(s');
    if AliveOption(s', s'.current) {
      longer := closed;
    } else {
      longer := FertileRevives(p, closed, s', t);
    }
  }

  lemma Dies(p: Params, run: seq<State>, s: State, longer: seq<State>)
    requires Here(p, run, s) && run <= longer && IsRun(p, longer) && |longer| > 0 && Doomed(p, s)
    ensures !Survives(p, run, longer)
  {
    hide IsRun, Doomed, RolesOk;
    var end := longer[|longer| - 1];
    assert longer[|run| - 1] == s;
    DoomLasts(p, longer, |run| - 1, |longer| - 1);
    assert RolesOk(end) by { RunKeepsInvariant(p, longer, |longer| - 1); }
    if ClosersDone(end) {
      NonePending(end);
      DoomMeans(p, end);
    }
  }

  lemma DoomMeans(p: Params, s: State)
    requires Doomed(p, s) && !ClosePending(s)
    ensures !AliveOption(s, s.current)
  {
  }
}
