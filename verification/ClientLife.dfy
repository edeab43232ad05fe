/**
 The life of connections: dialed under the re-dial lock, installed once, one
 alive at a time, and shut by Close.
 */
module ClientLife {
  import opened Wrappers
  import opened Client
  import opened ClientHistory
  import opened ClientControl
  import opened ClientErrors
  import opened ClientRoles
  import Handshake

  /** The connection a thread has dialed and is opening. */
  function Opens(pc: PC): Option<nat> {
    match pc
    case Greeting(c, _, _) => Some(c)
    case SetInfo(c, _) => Some(c)
    case Install(c) => Some(c)
    case Alloc(c, m) => if m.Opening? then Some(c) else None
    case Register(c, m, _, _) => if m.Opening? then Some(c) else None
    case Writing(c, m, _) => if m.Opening? then Some(c) else None
    case Unregister(c, m, _) => if m.Opening? then Some(c) else None
    case Awaiting(c, m, _) => if m.Opening? then Some(c) else None
    case Leaving(c, m, _, _) => if m.Opening? then Some(c) else None
    case Kill(c, _, after) => if AfterRedials(after) then Some(c) else None
    case Sending(c, _, _, after) => if AfterRedials(after) then Some(c) else None
    case _ => None
  }

  /** Past the second look at the current connection: it was dead. */
  predicate FoundDead(pc: PC) { pc.Redial? || pc.Dialing? || Opens(pc).Some? }

  lemma OpenersHoldLock(pc: PC)
    ensures FoundDead(pc) ==> HoldsLock(pc)
    ensures Opens(pc).Some? ==> ConnOf(pc) == Opens(pc)
  {
  }

  // --- control flow ---

  predicate Dials(st: Step) { st.Live? && st.l.DialSucceeds? }

  predicate Installs(st: Step) { st.Live? && st.l.InstallConn? }

  /** How a step changes what its thread is opening. */
  predicate OpensMove(p: Params, s: State, st: Step, pc: PC, pc': PC) {
    && (Opens(pc').Some? ==> if Dials(st) then Opens(pc') == Some(|s.conns|) else Opens(pc') == Opens(pc))
    && (Opens(pc).Some? && Opens(pc').None? ==> Installs(st) || (st.Delivery? && st.v.PoisonDone?))
    && (FoundDead(pc') && !FoundDead(pc) ==> st.Live? && st.l.DecideAliveAgain? && pc.ReCheckAlive? && !AliveOption(s, pc.seen))
    && (pc'.ReCheckAlive? ==> pc'.seen == s.current)
    && (pc'.Install? ==> st.Live? && st.l.StoreInfo? && pc.SetInfo?)
    && (pc'.SetInfo? ==> st.Live? && st.l.GreetNext? && pc.Greeting? && pc.k >= |Frames(p)|)
    && (pc'.Kill? && pc'.after == AfterClosing ==> s.current == Some(pc'.c) && st.Gate?)
  }

  lemma GateOpens(p: Params, s: State, t: nat, g: GateAction)
    requires At(s, t) && GateEnabled(p, s, Pc(s, t), g)
    ensures OpensMove(p, s, Gate(t, g), Pc(s, t), GatePc(s, Pc(s, t), g))
  {
  }

  lemma LiveOpens(p: Params, s: State, t: nat, l: LiveAction)
    requires At(s, t) && LiveEnabled(s, Pc(s, t), l)
    ensures OpensMove(p, s, Live(t, l), Pc(s, t), LivePc(p, s, s.threads[t], l))
  {
    hide Alive, Frames, Handshake.Opening, Handshake.Learned;
  }

  lemma DispatchOpens(p: Params, s: State, t: nat, d: DispatchAction)
    requires At(s, t) && DispatchEnabled(s, Pc(s, t), d)
    ensures OpensMove(p, s, Dispatch(t, d), Pc(s, t), DispatchPc(s, s.threads[t], d))
  {
    hide Alive, Received;
  }

  lemma DeliveryOpens(p: Params, s: State, t: nat, v: DeliveryAction)
    requires At(s, t) && DeliveryEnabled(s, Pc(s, t), v)
    ensures OpensMove(p, s, Delivery(t, v), Pc(s, t), DeliveryPc(p, s, s.threads[t], v))
  {
    hide OnBody;
  }

  lemma MoverOpens(p: Params, s: State, st: Step)
    requires Enabled(p, s, st) && !st.BeginCall? && !st.BeginClose?
    ensures OpensMove(p, s, st, Pc(s, st.t), Moved(p, s, st).pc)
  {
    hide OpensMove, GatePc, LivePc, DispatchPc, DeliveryPc;
    match st {
      case Gate(t, g) => GateOpens(p, s, t, g);
      case Live(t, l) => LiveOpens(p, s, t, l);
      case Dispatch(t, d) => DispatchOpens(p, s, t, d);
      case Delivery(t, v) => DeliveryOpens(p, s, t, v);
    }
  }

  // --- installation ---

  ghost predicate IsKth(s: State, k: nat)
    requires k < |s.installed|
  {
    s.installed[k] < |s.conns| && s.conns[s.installed[k]].ordinal == Some(k)
  }

  ghost predicate OrdinalOk(s: State, c: nat)
    requires c < |s.conns|
  {
    var k := s.conns[c].ordinal;
    k.Some? ==> k.value < |s.installed| && s.installed[k.value] == c && s.conns[c].greeted
  }

  ghost predicate OpeningOk(s: State, t: nat)
    requires At(s, t)
  {
    var pc := Pc(s, t);
    Opens(pc).Some? ==>
      var c := Opens(pc).value;
      && c < |s.conns| && s.conns[c].ordinal == None && s.conns[c].opener == t
      && (pc.SetInfo? || pc.Install? ==> s.conns[c].greeted)
  }

  /** The current connection is the last one installed, the k-th installed
      connection knows it is the k-th, and one being opened is not installed. */
  ghost predicate InstalledOk(s: State) {
    && (s.current.Some? ==> |s.installed| > 0 && s.installed[|s.installed| - 1] == s.current.value)
    && (forall k: nat | k < |s.installed| :: IsKth(s, k))
    && (forall c: nat | c < |s.conns| :: OrdinalOk(s, c))
    && (forall t: nat | t < |s.threads| :: OpeningOk(s, t))
  }

  lemma InstalledMoves(p: Params, s: State, st: Step, s': State)
    requires Enabled(p, s, st) && s' == Apply(p, s, st)
    ensures s'.installed == s.installed + (if Installs(st) then [Pc(s, st.t).c] else [])
  {
    hide ApplyGate, ApplyLive, ApplyDispatch, ApplyDelivery, DispatchEnabled, DeliveryEnabled;
    match st {
      case BeginCall(_) =>
      case BeginClose =>
      case Gate(t, g) => GateFields(p, s, t, g);
      case Live(t, l) => LiveFields(p, s, t, l);
      case Dispatch(t, d) => DispatchFields(p, s, t, d);
      case Delivery(t, v) => DeliveryFields(p, s, t, v);
    }
  }

  /** Ordinals and greetings change only at the hands of the opener. */
  lemma OrdinalMoves(p: Params, s: State, st: Step, s': State, c: nat)
    requires Enabled(p, s, st) && s' == Apply(p, s, st) && c < |s.conns|
    ensures c < |s'.conns|
    ensures s'.conns[c].opener == s.conns[c].opener && (s.conns[c].greeted ==> s'.conns[c].greeted)
    ensures s'.conns[c].ordinal == (if Installs(st) && Pc(s, st.t).c == c then Some(|s.installed|) else s.conns[c].ordinal)
    ensures st.Live? && st.l.GreetNext? && Pc(s, st.t).c == c && Pc(s, st.t).k >= |Frames(p)| ==> s'.conns[c].greeted
  {
    hide Apply, Frames, Adds;
    StepConns(p, s, st, s');
    assert FateIs(p, s, st, s', c);
  }

  lemma InstalledStep(p: Params, s: State, st: Step, s': State)
    requires InstalledOk(s) && RolesOk(s) && Enabled(p, s, st) && s' == Apply(p, s, st)
    ensures InstalledOk(s')
  {
    hide Apply, Enabled, Moved, Frames, OpensMove, RolesOk;
    StepThreads(p, s, st, s');
    StepFields(p, s, st, s');
    InstalledMoves(p, s, st, s');
    StepConns(p, s, st, s');
    if Installs(st) { InstallerOk(p, s, st); }
    forall k: nat | k < |s'.installed| ensures IsKth(s', k) {
      if k < |s.installed| {
        assert IsKth(s, k);
        OrdinalMoves(p, s, st, s', s.installed[k]);
      } else { OrdinalMoves(p, s, st, s', Pc(s, st.t).c); }
    }
    forall c: nat | c < |s'.conns| ensures OrdinalOk(s', c) {
      if c < |s.conns| {
        assert OrdinalOk(s, c);
        OrdinalMoves(p, s, st, s', c);
      }
    }
    forall t: nat | t < |s'.threads| ensures OpeningOk(s', t) {
      if t < |s.threads| { OpeningStep(p, s, st, s', t); } else { NewOpensNothing(p, s, st, s', t); }
    }
  }

  lemma InstallerOk(p: Params, s: State, st: Step)
    requires InstalledOk(s) && Enabled(p, s, st) && Installs(st)
    ensures var pc := Pc(s, st.t);
      pc.Install? && pc.c < |s.conns| && s.conns[pc.c].ordinal == None && s.conns[pc.c].greeted
  {
    assert OpeningOk(s, st.t);
  }

  lemma NewOpensNothing(p: Params, s: State, st: Step, s': State, t: nat)
    requires Enabled(p, s, st) && s' == Apply(p, s, st) && |s.threads| <= t < |s'.threads|
    ensures Opens(Pc(s', t)) == None && !FoundDead(Pc(s', t)) && !Pc(s', t).ReCheckAlive?
    ensures !(Pc(s', t).Kill? && Pc(s', t).after == AfterClosing) && !Pc(s', t).Install?
  {
    hide Apply, Enabled, Moved;
    StepThreads(p, s, st, s');
  }

  lemma OpeningStep(p: Params, s: State, st: Step, s': State, t: nat)
    requires InstalledOk(s) && RolesOk(s) && Enabled(p, s, st) && s' == Apply(p, s, st) && At(s, t) && At(s', t)
    ensures OpeningOk(s', t)
  {
    hide Apply, Enabled, Moved, Frames;
    StepThreads(p, s, st, s');
    StepConns(p, s, st, s');
    var pc := Pc(s, t);
    assert OpeningOk(s, t) && RoleOk(s, t);
    if Opens(pc).Some? { OrdinalMoves(p, s, st, s', Opens(pc).value); }
    if Mover(s, st) == t {
      MoverOpens(p, s, st);
      if Installs(st) { InstallerOk(p, s, st); NotStillOpening(p, s, st); }
    } else if Installs(st) {
      assert RoleOk(s, st.t);
      OpenersHoldLock(pc);
      InstallerOk(p, s, st);
    }
  }

  lemma NotStillOpening(p: Params, s: State, st: Step)
    requires Enabled(p, s, st) && Installs(st)
    ensures Opens(Moved(p, s, st).pc) == None
  {
  }

  // --- one connection alive ---

  ghost predicate Shutting(s: State, t: nat, c: nat) {
    At(s, t) && Pc(s, t).Kill? && Pc(s, t).after == AfterClosing && Pc(s, t).c == c
  }

  /** Why a connection may still be alive: installed, being opened, or about to be shut by Close. */
  ghost predicate Kept(s: State, c: nat) {
    || s.current == Some(c)
    || (s.redialer.Some? && At(s, s.redialer.value) && Opens(Pc(s, s.redialer.value)) == Some(c))
    || exists t: nat :: Shutting(s, t, c)
  }

  ghost predicate DeadOk(s: State, t: nat)
    requires At(s, t)
  {
    && (FoundDead(Pc(s, t)) ==> !AliveOption(s, s.current))
    && (Pc(s, t).ReCheckAlive? ==> s.current == Pc(s, t).seen || s.current == None)
  }

  ghost predicate SoleOk(s: State) {
    && (forall t: nat | t < |s.threads| :: DeadOk(s, t))
    && (forall c: nat | c < |s.conns| && s.conns[c].table.alive :: Kept(s, c))
  }

  lemma DeadStep(p: Params, s: State, st: Step, s': State, t: nat)
    requires SoleOk(s) && RolesOk(s) && Enabled(p, s, st) && s' == Apply(p, s, st) && At(s, t) && At(s', t)
    requires Grows(s, s')
    requires s.current.Some? ==> s.current.value < |s.conns|
    ensures DeadOk(s', t)
  {
    hide Apply, Enabled, Moved, Frames;
    StepThreads(p, s, st, s');
    StepFields(p, s, st, s');
    var pc := Pc(s, t);
    assert DeadOk(s, t) && RoleOk(s, t);
    assert AliveOption(s', s.current) ==> AliveOption(s, s.current) by {
      if s.current.Some? { assert ConnGrows(s.conns[s.current.value], s'.conns[s.current.value]); }
    }
    OpenersHoldLock(pc);
    if Mover(s, st) == t {
      MoverOpens(p, s, st);
      if Installs(st) { NotStillOpening(p, s, st); InstallLeaves(p, s, st); }
    } else if Installs(st) {
      assert RoleOk(s, st.t);
      InstallHolds(p, s, st);
    }
  }

  lemma InstallLeaves(p: Params, s: State, st: Step)
    requires Enabled(p, s, st) && Installs(st)
    ensures !FoundDead(Moved(p, s, st).pc) && !Moved(p, s, st).pc.ReCheckAlive?
  {
  }

  lemma InstallHolds(p: Params, s: State, st: Step)
    requires Enabled(p, s, st) && Installs(st)
    ensures At(s, st.t) && HoldsLock(Pc(s, st.t)) && Pc(s, st.t).Install?
  {
  }

  /** A thread shutting c goes on doing so until c is dead. */
  lemma ShuttingStays(p: Params, s: State, st: Step, s': State, t: nat, c: nat)
    requires Enabled(p, s, st) && s' == Apply(p, s, st) && Shutting(s, t, c) && c < |s.conns|
    requires Alive(s', c)
    ensures Shutting(s', t, c)
  {
    hide Apply, Moved, ApplyGate, ApplyLive, ApplyDispatch, Frames, Adds;
    StepThreads(p, s, st, s');
    StepConns(p, s, st, s');
    assert FateIs(p, s, st, s', c);
  }

  lemma KeptStep(p: Params, s: State, st: Step, s': State, c: nat)
    requires SoleOk(s) && RolesOk(s) && Enabled(p, s, st) && s' == Apply(p, s, st)
    requires forall t: nat | t < |s.threads| :: PcOk(s, Pc(s, t))
    requires c < |s.conns| && s.conns[c].table.alive && Alive(s', c)
    ensures Kept(s', c)
  {
    hide Apply, Enabled, Moved, Frames, OpensMove;
    assert Kept(s, c);
    StepThreads(p, s, st, s');
    StepFields(p, s, st, s');
    if s.current == Some(c) {
      CurrentStaysKept(p, s, st, s', c);
    } else if s.redialer.Some? && At(s, s.redialer.value) && Opens(Pc(s, s.redialer.value)) == Some(c) {
      OpenedStaysKept(p, s, st, s', c);
    } else {
      var t: nat :| Shutting(s, t, c);
      ShuttingStays(p, s, st, s', t, c);
    }
  }

  lemma CurrentStaysKept(p: Params, s: State, st: Step, s': State, c: nat)
    requires SoleOk(s) && Enabled(p, s, st) && s' == Apply(p, s, st) && Alive(s, c) && s.current == Some(c)
    ensures Kept(s', c)
  {
    hide ApplyGate, ApplyLive, ApplyDispatch, ApplyDelivery, DispatchEnabled, DeliveryEnabled;
    StepThreads(p, s, st, s');
    StepFields(p, s, st, s');
    if st.Live? { assert DeadOk(s, st.t); }
    if st.Gate? && st.g.TakeConn? { assert Shutting(s', st.t, c); }
  }

  lemma OpenedStaysKept(p: Params, s: State, st: Step, s': State, c: nat)
    requires RolesOk(s) && Enabled(p, s, st) && s' == Apply(p, s, st) && Alive(s', c) && c < |s.conns|
    requires forall t: nat | t < |s.threads| :: PcOk(s, Pc(s, t))
    requires s.redialer.Some? && At(s, s.redialer.value) && Opens(Pc(s, s.redialer.value)) == Some(c)
    ensures Kept(s', c)
  {
    hide Apply, Enabled, Moved, Frames, DeliveryEnabled;
    StepThreads(p, s, st, s');
    StepFields(p, s, st, s');
    var t := s.redialer.value;
    if Mover(s, st) == t {
      MoverOpens(p, s, st);
      OpenerStaysKept(p, s, st, s', t, c);
    } else if Locks(st) || Unlocks(st) {
      assert RoleOk(s, st.t);
      MoverSuits(p, s, st);
    }
  }

  lemma OpenerStaysKept(p: Params, s: State, st: Step, s': State, t: nat, c: nat)
    requires Enabled(p, s, st) && s' == Apply(p, s, st) && Alive(s', c) && c < |s.conns|
    requires At(s, t) && Mover(s, st) == t && Opens(Pc(s, t)) == Some(c) && PcOk(s, Pc(s, t)) && s.redialer == Some(t)
    requires OpensMove(p, s, st, Pc(s, t), Moved(p, s, st).pc)
    ensures Kept(s', c)
  {
    hide ApplyGate, ApplyLive, ApplyDispatch, ApplyDelivery, DispatchEnabled, Moved, Frames, Adds;
    StepThreads(p, s, st, s');
    StepFields(p, s, st, s');
    StepConns(p, s, st, s');
    assert FateIs(p, s, st, s', c);
  }

  lemma SoleStep(p: Params, s: State, st: Step, s': State)
    requires SoleOk(s) && RolesOk(s) && ErrorsOk(s) && Enabled(p, s, st) && s' == Apply(p, s, st)
    ensures SoleOk(s')
  {
    hide Apply, Enabled, Moved, Frames, Kept, DeadOk;
    StepGrows(p, s, st, s');
    StepThreads(p, s, st, s');
    StepConns(p, s, st, s');
    forall t: nat | t < |s'.threads| ensures DeadOk(s', t) {
      if t < |s.threads| { DeadStep(p, s, st, s', t); } else { NewIsNotDead(p, s, st, s', t); }
    }
    forall c: nat | c < |s'.conns| && s'.conns[c].table.alive ensures Kept(s', c) {
      if c < |s.conns| {
        assert ConnGrows(s.conns[c], s'.conns[c]);
        KeptStep(p, s, st, s', c);
      } else { NewIsKept(p, s, st, s'); }
    }
  }

  lemma NewIsNotDead(p: Params, s: State, st: Step, s': State, t: nat)
    requires Enabled(p, s, st) && s' == Apply(p, s, st) && |s.threads| <= t < |s'.threads|
    ensures DeadOk(s', t)
  {
    hide Apply, Enabled;
    NewOpensNothing(p, s, st, s', t);
  }

  lemma NewIsKept(p: Params, s: State, st: Step, s': State)
    requires RolesOk(s) && Enabled(p, s, st) && s' == Apply(p, s, st) && Dials(st)
    ensures Kept(s', |s.conns|)
  {
    hide Apply, ApplyLive, Handshake.Opening, Frames;
    StepThreads(p, s, st, s');
    StepFields(p, s, st, s');
    assert RoleOk(s, st.t);
  }

  // --- the stored handshake info ---

  predicate Installing(s: State) {
    s.redialer.Some? && At(s, s.redialer.value) && Pc(s, s.redialer.value).Install?
  }

  ghost predicate InstallInfoOk(s: State, t: nat)
    requires At(s, t)
  {
    Pc(s, t).Install? ==> Pc(s, t).c < |s.conns| && s.conns[Pc(s, t).c].info == Some(s.info)
  }

  ghost predicate InfoOk(s: State) {
    && (s.current.Some? && !Installing(s) ==>
          s.current.value < |s.conns| && s.conns[s.current.value].info == Some(s.info))
    && (forall t: nat | t < |s.threads| :: InstallInfoOk(s, t))
  }

  lemma InfoMoves(p: Params, s: State, st: Step, s': State, c: nat)
    requires Enabled(p, s, st) && s' == Apply(p, s, st) && c < |s.conns|
    ensures c < |s'.conns|
    ensures s'.conns[c].info
      == (if st.Live? && st.l.StoreInfo? && Pc(s, st.t).c == c then Some(Pc(s, st.t).learned) else s.conns[c].info)
  {
    hide Apply, Frames, Adds;
    StepConns(p, s, st, s');
    assert FateIs(p, s, st, s', c);
  }

  lemma StoreInstalls(p: Params, s: State, st: Step)
    requires Enabled(p, s, st) && st.Live? && (st.l.StoreInfo? || st.l.InstallConn?)
    ensures At(s, st.t) && HoldsLock(Pc(s, st.t))
    ensures st.l.StoreInfo? ==> Pc(s, st.t).SetInfo? && Moved(p, s, st).pc == Install(Pc(s, st.t).c)
    ensures st.l.InstallConn? ==> Pc(s, st.t).Install? && !Moved(p, s, st).pc.Install?
  {
  }

  lemma InfoStep(p: Params, s: State, st: Step, s': State)
    requires InfoOk(s) && RolesOk(s) && InstalledOk(s) && Enabled(p, s, st) && s' == Apply(p, s, st)
    ensures InfoOk(s')
  {
    hide Apply, Enabled, Moved, Frames;
    StepThreads(p, s, st, s');
    StepFields(p, s, st, s');
    if st.Live? && (st.l.StoreInfo? || st.l.InstallConn?) {
      StoreStep(p, s, st, s');
    } else {
      OtherInfoStep(p, s, st, s');
    }
  }

  lemma StoreStep(p: Params, s: State, st: Step, s': State)
    requires InfoOk(s) && RolesOk(s) && InstalledOk(s) && Enabled(p, s, st) && s' == Apply(p, s, st)
    requires st.Live? && (st.l.StoreInfo? || st.l.InstallConn?)
    ensures InfoOk(s')
  {
    hide Apply, Enabled, Moved, Frames;
    StepThreads(p, s, st, s');
    StepFields(p, s, st, s');
    StoreInstalls(p, s, st);
    var c := Pc(s, st.t).c;
    assert RoleOk(s, st.t) && OpeningOk(s, st.t) && InstallInfoOk(s, st.t);
    InfoMoves(p, s, st, s', c);
    forall t: nat | t < |s'.threads| ensures InstallInfoOk(s', t) {
      if t < |s.threads| { assert RoleOk(s, t); }
    }
  }

  lemma OtherInfoStep(p: Params, s: State, st: Step, s': State)
    requires InfoOk(s) && RolesOk(s) && Enabled(p, s, st) && s' == Apply(p, s, st)
    requires !(st.Live? && (st.l.StoreInfo? || st.l.InstallConn?))
    ensures InfoOk(s')
  {
    hide Apply, Enabled, Moved, Frames;
    StepThreads(p, s, st, s');
    StepFields(p, s, st, s');
    if s.current.Some? && s.current.value < |s.conns| { InfoMoves(p, s, st, s', s.current.value); }
    if !st.BeginCall? && !st.BeginClose? {
      assert RoleOk(s, st.t);
      MoverOpens(p, s, st);
      MoverSuits(p, s, st);
    }
    assert Installing(s') <==> Installing(s) by {
      if s.redialer.Some? { assert RoleOk(s, s.redialer.value); }
      InstallStays(p, s, st);
    }
    forall t: nat | t < |s'.threads| ensures InstallInfoOk(s', t) {
      if t < |s.threads| {
        assert InstallInfoOk(s, t);
        if Pc(s, t).Install? { InfoMoves(p, s, st, s', Pc(s, t).c); }
      } else { NewOpensNothing(p, s, st, s', t); }
    }
  }

  /** A thread at Install stays there until it installs. */
  lemma InstallStays(p: Params, s: State, st: Step)
    requires Enabled(p, s, st)
    ensures !st.BeginCall? && !st.BeginClose? && Pc(s, st.t).Install? ==> Installs(st)
  {
  }

  lemma InitLifeOk()
    ensures InstalledOk(Init()) && SoleOk(Init()) && InfoOk(Init())
  {
  }
}
