/** Conservation: permits, re-dial budgets, establish attempts and decoded responses. */
module ClientCounts {
  import opened Wrappers
  import opened Client
  import opened ClientControl
  import opened ClientRoles
  import opened ClientLife
  import opened ClientTotals
  import Handshake

  // --- what one thread contributes ---

  /** A caller holds a permit from its successful send on the gate to its release. */
  function Permit(th: Thread): nat {
    if th.kind == Caller && !th.pc.AcqWait? && !th.pc.Done? then 1 else 0
  }

  function Budget(th: Thread): nat { th.budget }

  /** Counted as decoded, but not yet as taken or dropped. */
  function Undecided(th: Thread): nat { if th.pc.Dropping? then 1 else 0 }

  /** An establish attempt that has neither installed a connection nor failed. */
  function Attempt(th: Thread): nat { if th.pc.Dialing? || Opens(th.pc).Some? then 1 else 0 }

  function Dialer(th: Thread): nat { if th.pc.Dialing? then 1 else 0 }

  ghost predicate CountsOk(s: State) {
    && s.permits == Total(Permit, s.threads)
    && s.dials + Total(Budget, s.threads) == REDIALS * s.begun
    && s.decoded == s.taken + s.drops + Total(Undecided, s.threads)
    && |s.installed| + Total(Attempt, s.threads) <= 1 + s.dials
    && |s.conns| + Total(Dialer, s.threads) <= 1 + s.dials
  }

  // --- the counters of a step ---

  predicate Spends(s: State, st: Step) {
    st.Live? && st.l.SpendBudget? && At(s, st.t) && s.threads[st.t].budget > 0
  }

  function Bodies(p: Params, s: State, st: Step): Option<Action> {
    if st.Delivery? && st.v.ReadFrame? && At(s, st.t) && Pc(s, st.t).Reading?
    then Some(Decision(p, s, Pc(s, st.t).c, st.v.body)) else None
  }

  lemma StepCounters(p: Params, s: State, st: Step, s': State)
    requires Enabled(p, s, st) && s' == Apply(p, s, st)
    ensures s'.begun == s.begun + (if st.BeginCall? then 1 else 0)
    ensures s'.dials == s.dials + (if Spends(s, st) then 1 else 0)
    ensures s'.drops == s.drops + (if st.Delivery? && st.v.CountDrop? then 1 else 0)
    ensures s'.taken == s.taken + (if Bodies(p, s, st).Some? && Bodies(p, s, st).value.Match? then 1 else 0)
    ensures s'.decoded == s.decoded
      + (if Bodies(p, s, st).Some? && (Bodies(p, s, st).value.Match? || Bodies(p, s, st).value.Unmatched?) then 1 else 0)
  {
    hide ApplyGate, ApplyLive, ApplyDispatch, ApplyDelivery, DispatchEnabled, OnBody;
    match st {
      case BeginCall(_) =>
      case BeginClose =>
      case Gate(t, g) => GateFields(p, s, t, g);
      case Live(t, l) => LiveFields(p, s, t, l);
      case Dispatch(t, d) => DispatchFields(p, s, t, d);
      case Delivery(t, v) => DeliveryFields(p, s, t, v);
    }
  }

  // --- what the moving thread contributes before and after ---

  lemma MoverPermit(p: Params, s: State, st: Step)
    requires Enabled(p, s, st) && !st.BeginCall? && !st.BeginClose? && Suits(s.threads[st.t].kind, Pc(s, st.t))
    ensures Permit(Moved(p, s, st)) + (if st.Gate? && (st.g.AcqGiveBack? || st.g.ReleasePermit?) then 1 else 0)
      == Permit(s.threads[st.t]) + (if st.Gate? && st.g.AcqTake? then 1 else 0)
  {
    hide OnBody, Alive, Received, Frames, Handshake.Opening, Handshake.Learned;
  }

  lemma MoverBudget(p: Params, s: State, st: Step)
    requires Enabled(p, s, st) && !st.BeginCall? && !st.BeginClose?
    ensures Budget(Moved(p, s, st)) + (if Spends(s, st) then 1 else 0) == Budget(s.threads[st.t])
  {
    hide GatePc, LivePc, DispatchPc, DeliveryPc;
  }

  lemma MoverUndecided(p: Params, s: State, st: Step)
    requires Enabled(p, s, st) && !st.BeginCall? && !st.BeginClose?
    ensures Undecided(Moved(p, s, st)) + (if st.Delivery? && st.v.CountDrop? then 1 else 0)
      == Undecided(s.threads[st.t]) + (if Bodies(p, s, st).Some? && Bodies(p, s, st).value.Unmatched? then 1 else 0)
  {
    hide OnBody, Alive, Received, Frames, Handshake.Opening, Handshake.Learned;
  }

  lemma MoverAttempt(p: Params, s: State, st: Step)
    requires Enabled(p, s, st) && !st.BeginCall? && !st.BeginClose?
    ensures Attempt(Moved(p, s, st)) + (if Installs(st) then 1 else 0)
      <= Attempt(s.threads[st.t]) + (if Spends(s, st) then 1 else 0)
  {
    hide GatePc, DispatchPc, DeliveryPc, Alive, Frames, Handshake.Opening, Handshake.Learned;
    MoverOpens(p, s, st);
    MoverDials(p, s, st);
  }

  lemma MoverDials(p: Params, s: State, st: Step)
    requires Enabled(p, s, st) && !st.BeginCall? && !st.BeginClose?
    ensures Dialer(Moved(p, s, st)) + (if Dials(st) then 1 else 0)
      <= Dialer(s.threads[st.t]) + (if Spends(s, st) then 1 else 0)
  {
    hide OnBody, Alive, Received, Frames, Handshake.Opening, Handshake.Learned;
  }

  // --- every step ---

  lemma TotalsMove(f: Thread -> nat, p: Params, s: State, st: Step, s': State)
    requires Enabled(p, s, st) && s' == Apply(p, s, st) && !st.BeginCall? && !st.BeginClose?
    requires f(NewReader(|s.conns|)) == 0
    ensures At(s, st.t) && Total(f, s'.threads) + f(s.threads[st.t]) == Total(f, s.threads) + f(Moved(p, s, st))
  {
    hide Apply, Enabled, Moved, NewReader;
    StepThreads(p, s, st, s');
    TotalStep(f, s.threads, st.t, Moved(p, s, st), if Dials(st) then [NewReader(|s.conns|)] else []);
  }

  lemma TotalsStart(f: Thread -> nat, p: Params, s: State, st: Step, s': State)
    requires Enabled(p, s, st) && s' == Apply(p, s, st) && (st.BeginCall? || st.BeginClose?)
    ensures Total(f, s'.threads) == Total(f, s.threads) + f(if st.BeginCall? then NewCaller(s, st.cmd) else NEW_CLOSER)
  {
    hide Apply, Enabled;
    StepThreads(p, s, st, s');
    TotalAppend(f, s.threads, if st.BeginCall? then NewCaller(s, st.cmd) else NEW_CLOSER);
  }

  lemma CountsStep(p: Params, s: State, st: Step, s': State)
    requires CountsOk(s) && RolesOk(s) && Enabled(p, s, st) && s' == Apply(p, s, st)
    ensures CountsOk(s')
  {
    hide Apply, Enabled, Moved, Permit, Attempt, Undecided, Dialer, Budget, Total;
    StepFields(p, s, st, s');
    StepCounters(p, s, st, s');
    InstalledMoves(p, s, st, s');
    StepConns(p, s, st, s');
    if st.BeginCall? || st.BeginClose? {
      StartCounts(p, s, st, s');
    } else {
      ReaderCounts(|s.conns|);
      TotalsMove(Permit, p, s, st, s');
      TotalsMove(Budget, p, s, st, s');
      TotalsMove(Undecided, p, s, st, s');
      TotalsMove(Attempt, p, s, st, s');
      TotalsMove(Dialer, p, s, st, s');
      assert RoleOk(s, st.t);
      MoverPermit(p, s, st);
      MoverBudget(p, s, st);
      MoverUndecided(p, s, st);
      MoverAttempt(p, s, st);
      MoverDials(p, s, st);
    }
  }

  lemma ReaderCounts(c: nat)
    ensures Permit(NewReader(c)) == Budget(NewReader(c)) == Undecided(NewReader(c)) == 0
    ensures Attempt(NewReader(c)) == Dialer(NewReader(c)) == 0
  {
  }

  lemma StartCounts(p: Params, s: State, st: Step, s': State)
    requires CountsOk(s) && Enabled(p, s, st) && s' == Apply(p, s, st) && (st.BeginCall? || st.BeginClose?)
    ensures CountsOk(s')
  {
    hide Total;
    TotalsStart(Permit, p, s, st, s');
    TotalsStart(Budget, p, s, st, s');
    TotalsStart(Undecided, p, s, st, s');
    TotalsStart(Attempt, p, s, st, s');
    TotalsStart(Dialer, p, s, st, s');
  }

  lemma InitCountsOk()
    ensures CountsOk(Init())
  {
    var th := Init().threads[0];
    assert Init().threads[1..] == [];
    assert forall f: Thread -> nat :: Total(f, [th]) == f(th) + Total(f, [th][1..]);
  }

  /** Permits never exceed the bound; a permit is taken only below it. */
  lemma PermitsStep(p: Params, s: State, st: Step, s': State)
    requires s.permits <= Bound(p) && Enabled(p, s, st) && s' == Apply(p, s, st)
    ensures s'.permits <= Bound(p)
  {
    hide Apply, LiveEnabled, DispatchEnabled, DeliveryEnabled;
    StepFields(p, s, st, s');
  }
}
