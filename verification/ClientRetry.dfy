/**
 The resend loop of a call: at most once per connection, on newer connections
 each time, at most two establish attempts, and never after a written frame.
 */
module ClientRetry {
  import opened Wrappers
  import opened ClientTypes
  import opened Client
  import opened ClientWaiters
  import opened ClientHistory
  import opened ClientControl
  import opened ClientErrors
  import opened ClientRoles
  import opened ClientLife
  import opened ClientCounts
  import Handshake

  // --- places in the loop ---

  /** The connection a caller's own dispatch is under way on. */
  function Target(pc: PC): Option<nat> {
    match pc
    case Register(c, User, _, _) => Some(c)
    case Writing(c, User, _) => Some(c)
    case Unregister(c, User, _) => Some(c)
    case Awaiting(c, User, _) => Some(c)
    case Leaving(c, User, _, _) => Some(c)
    case Kill(c, _, AfterWrite(User)) => Some(c)
    case Sending(c, _, _, AfterWrite(User)) => Some(c)
    case _ => None
  }

  /** The connection the next dispatch may use. */
  function Candidate(pc: PC): Option<nat> {
    match pc
    case CheckAlive(seen) => seen
    case ReCheckAlive(seen) => seen
    case Unlock(Go(c)) => Some(c)
    case Alloc(c, User) => Some(c)
    case _ => None
  }

  /** It has been found alive, or is new. */
  predicate Chosen(pc: PC) { pc.Unlock? || pc.Alloc? }

  predicate Finished(pc: PC) { pc.Release? || pc.Done? }

  predicate WrittenPc(pc: PC) {
    ((pc.Awaiting? || pc.Leaving?) && pc.m.User?) || Finished(pc)
  }

  // --- the invariant ---

  predicate Dead(s: State, c: nat) { c < |s.conns| && !s.conns[c].table.alive }

  /** Between dispatches every connection tried so far is dead; during one, all but the last. */
  ghost predicate TriedDead(s: State, th: Thread) {
    if Finished(th.pc) then true
    else if Target(th.pc).Some? then
      && |th.tried| > 0 && th.tried[|th.tried| - 1] == Target(th.pc).value
      && (forall i: nat | i < |th.tried| - 1 :: Dead(s, th.tried[i]))
    else forall i: nat | i < |th.tried| :: Dead(s, th.tried[i])
  }

  /** Installed, and not long before the call began. */
  predicate Placed(s: State, c: nat, base: nat) {
    c < |s.conns| && s.conns[c].ordinal.Some? && base <= s.conns[c].ordinal.value + 1
  }

  predicate Older(s: State, a: nat, b: nat) {
    a < |s.conns| && b < |s.conns| && s.conns[a].ordinal.Some? && s.conns[b].ordinal.Some?
    && s.conns[a].ordinal.value < s.conns[b].ordinal.value
  }

  ghost predicate TriedPlaced(s: State, th: Thread) {
    && (forall i: nat | i < |th.tried| :: Placed(s, th.tried[i], th.base))
    && (forall i: nat, j: nat | i < j < |th.tried| :: Older(s, th.tried[i], th.tried[j]))
  }

  ghost predicate CandidateOk(s: State, th: Thread) {
    Candidate(th.pc).Some? ==>
      var c := Candidate(th.pc).value;
      && Placed(s, c, th.base)
      && (forall i: nat | i < |th.tried| :: Older(s, th.tried[i], c) || (th.tried[i] == c && !Chosen(th.pc)))
  }

  predicate BudgetOk(th: Thread) {
    && (th.kind == Caller ==> th.budget + th.establishes == REDIALS)
    && (th.kind == Connector ==> th.establishes == 1)
    && th.own + Attempt(th) <= th.establishes
  }

  predicate WritesOk(th: Thread) {
    th.writes == 0 || (th.writes == 1 && WrittenPc(th.pc))
  }

  ghost predicate RetryOk(s: State, th: Thread) {
    TriedDead(s, th) && TriedPlaced(s, th) && CandidateOk(s, th) && BudgetOk(th) && WritesOk(th) && th.base <= |s.installed|
  }

  ghost predicate RetriesOk(s: State) {
    forall t: nat | t < |s.threads| :: RetryOk(s, s.threads[t])
  }

  // --- what other threads' steps keep ---

  lemma OrdinalStays(s: State, s': State, c: nat)
    requires InstalledOk(s) && InstalledOk(s') && s.installed <= s'.installed && c < |s.conns|
    requires s.conns[c].ordinal.Some?
    ensures c < |s'.conns| && s'.conns[c].ordinal == s.conns[c].ordinal
  {
    assert OrdinalOk(s, c);
    assert IsKth(s', s.conns[c].ordinal.value);
  }

  lemma RetryStays(s: State, s': State, th: Thread)
    requires RetryOk(s, th) && Grows(s, s') && InstalledOk(s) && InstalledOk(s')
    ensures RetryOk(s', th)
  {
    hide InstalledOk;
    forall i: nat | i < |th.tried|
      ensures Placed(s', th.tried[i], th.base) && (Dead(s, th.tried[i]) ==> Dead(s', th.tried[i]))
    {
      assert Placed(s, th.tried[i], th.base);
      OrdinalStays(s, s', th.tried[i]);
      assert ConnGrows(s.conns[th.tried[i]], s'.conns[th.tried[i]]);
    }
    forall i: nat, j: nat | i < j < |th.tried| ensures Older(s', th.tried[i], th.tried[j]) {
      assert Older(s, th.tried[i], th.tried[j]);
      OlderStays(s, s', th.tried[i], th.tried[j]);
    }
    assert CandidateOk(s', th) by { CandidateStays(s, s', th); }
  }

  lemma OlderStays(s: State, s': State, a: nat, b: nat)
    requires Older(s, a, b) && InstalledOk(s) && InstalledOk(s') && s.installed <= s'.installed
    ensures Older(s', a, b)
  {
    OrdinalStays(s, s', a);
    OrdinalStays(s, s', b);
  }

  lemma CandidateStays(s: State, s': State, th: Thread)
    requires CandidateOk(s, th) && InstalledOk(s) && InstalledOk(s') && s.installed <= s'.installed
    ensures CandidateOk(s', th)
  {
    hide InstalledOk;
    if Candidate(th.pc).Some? {
      var c := Candidate(th.pc).value;
      OrdinalStays(s, s', c);
      forall i: nat | i < |th.tried|
        ensures Older(s', th.tried[i], c) || (th.tried[i] == c && !Chosen(th.pc))
      {
        if Older(s, th.tried[i], c) { OlderStays(s, s', th.tried[i], c); }
      }
    }
  }

  // --- control flow ---

  predicate Resends(s: State, st: Step, pc: PC) {
    (st.Dispatch? && st.d.RegisterWaiter? && pc.Register? && !Alive(s, pc.c)) || (st.Delivery? && st.v.PoisonDone? && pc.Sending?)
  }

  predicate LoadsCurrent(st: Step) { st.Live? && (st.l.LoadConn? || st.l.LoadConnAgain?) }

  predicate FindsAlive(st: Step) { st.Live? && (st.l.DecideAlive? || st.l.DecideAliveAgain?) }

  /** How a step moves its thread around the loop. */
  predicate LoopMove(s: State, st: Step, pc: PC, pc': PC) {
    && (Finished(pc) ==> Finished(pc'))
    && (Target(pc').Some? ==>
          Target(pc) == Target(pc') || (st.Dispatch? && st.d.AllocId? && pc == Alloc(Target(pc').value, User)))
    && (Target(pc).Some? ==> Target(pc') == Target(pc) || Finished(pc') || (pc' == LiveTop && Resends(s, st, pc)))
    && (Candidate(pc').Some? ==>
          || (LoadsCurrent(st) && Candidate(pc') == s.current && !Chosen(pc'))
          || (FindsAlive(st) && Candidate(pc') == Candidate(pc) && AliveOption(s, Candidate(pc')) && Chosen(pc'))
          || (Installs(st) && pc == Install(Candidate(pc').value))
          || (Candidate(pc') == Candidate(pc) && Chosen(pc)))
    && (WrittenPc(pc) ==> WrittenPc(pc'))
  }

  /** A call whose frame is out is never told that it was not written. */
  predicate CleanReceipt(s: State, st: Step, pc: PC) {
    && (st.Dispatch? && st.d.Receive? && pc.Awaiting? && pc.w < |s.waiters| && s.waiters[pc.w].chan.Some?
        ==> Received(s.waiters[pc.w].chan.value) != Err(WriteFailed))
    && CleanPc(pc)
  }

  lemma GateLoop(p: Params, s: State, t: nat, g: GateAction)
    requires At(s, t) && GateEnabled(p, s, Pc(s, t), g)
    ensures LoopMove(s, Gate(t, g), Pc(s, t), GatePc(s, Pc(s, t), g))
  {
  }

  lemma LiveLoop(p: Params, s: State, t: nat, l: LiveAction)
    requires At(s, t) && LiveEnabled(s, Pc(s, t), l)
    ensures LoopMove(s, Live(t, l), Pc(s, t), LivePc(p, s, s.threads[t], l))
  {
    hide Alive, Frames, Handshake.Opening, Handshake.Learned;
  }

  lemma DispatchLoop(p: Params, s: State, t: nat, d: DispatchAction)
    requires At(s, t) && DispatchEnabled(s, Pc(s, t), d) && CleanReceipt(s, Dispatch(t, d), Pc(s, t))
    ensures LoopMove(s, Dispatch(t, d), Pc(s, t), DispatchPc(s, s.threads[t], d))
  {
    hide Alive, Received;
  }

  lemma DeliveryLoop(p: Params, s: State, t: nat, v: DeliveryAction)
    requires At(s, t) && DeliveryEnabled(s, Pc(s, t), v)
    ensures LoopMove(s, Delivery(t, v), Pc(s, t), DeliveryPc(p, s, s.threads[t], v))
  {
    hide OnBody;
  }

  lemma MoverLoop(p: Params, s: State, st: Step)
    requires Enabled(p, s, st) && !st.BeginCall? && !st.BeginClose? && CleanReceipt(s, st, Pc(s, st.t))
    ensures LoopMove(s, st, Pc(s, st.t), Moved(p, s, st).pc)
  {
    hide LoopMove, CleanReceipt, GatePc, LivePc, DispatchPc, DeliveryPc;
    match st {
      case Gate(t, g) => GateLoop(p, s, t, g);
      case Live(t, l) => LiveLoop(p, s, t, l);
      case Dispatch(t, d) => DispatchLoop(p, s, t, d);
      case Delivery(t, v) => DeliveryLoop(p, s, t, v);
    }
  }

  /** What reaches a caller over its channel is not a write failure. */
  lemma ReceiptIsClean(p: Params, s: State, st: Step)
    requires WaitersOk(s) && ErrorsOk(s) && Enabled(p, s, st) && !st.BeginCall? && !st.BeginClose?
    ensures CleanReceipt(s, st, Pc(s, st.t))
  {
    assert PcOk(s, Pc(s, st.t));
    if st.Dispatch? && st.d.Receive? {
      var w := Pc(s, st.t).w;
      assert ChannelOk(s, w) && SentOk(s, s.waiters[w]);
      assert s.waiters[w].chan.value in s.waiters[w].sends;
    }
  }

  // --- the thread that moves ---

  predicate Enters(st: Step, pc: PC) { st.Dispatch? && st.d.AllocId? && pc.Alloc? && pc.m.User? }

  lemma MovedHistory(p: Params, s: State, st: Step)
    requires Enabled(p, s, st) && !st.BeginCall? && !st.BeginClose?
    ensures var th, th' := s.threads[st.t], Moved(p, s, st);
      && th'.kind == th.kind && th'.base == th.base
      && th'.tried == th.tried + (if Enters(st, th.pc) then [th.pc.c] else [])
      && (Enters(st, th.pc) ==> Target(th'.pc) == Some(th.pc.c))
      && th'.own == th.own + (if Installs(st) then 1 else 0)
      && th'.establishes == th.establishes + (if Spends(s, st) then 1 else 0)
      && th'.writes == th.writes + (if st.Dispatch? && st.d.WriteSucceeds? && Target(th.pc).Some? then 1 else 0)
      && (th'.writes > th.writes ==> WrittenPc(th'.pc) && !WrittenPc(th.pc))
  {
    hide GatePc, LivePc, DeliveryPc, AfterDispatch, Received, Alive;
  }

  lemma MoverTried(p: Params, s: State, st: Step, s': State)
    requires Enabled(p, s, st) && !st.BeginCall? && !st.BeginClose? && Grows(s, s')
    requires TriedDead(s, s.threads[st.t]) && PcOk(s, Pc(s, st.t)) && LoopMove(s, st, Pc(s, st.t), Moved(p, s, st).pc)
    ensures TriedDead(s', Moved(p, s, st))
  {
    assert At(s, st.t);
    hide Moved, Enabled, LiveEnabled;
    MovedHistory(p, s, st);
    var th, th' := s.threads[st.t], Moved(p, s, st);
    assert forall c: nat | Dead(s, c) :: Dead(s', c) by {
      forall c: nat | Dead(s, c) ensures Dead(s', c) { assert ConnGrows(s.conns[c], s'.conns[c]); }
    }
    assert Resends(s, st, th.pc) && Target(th.pc).Some? ==> Dead(s, Target(th.pc).value);
  }

  lemma PlacedStays(s: State, s': State, th: Thread)
    requires TriedPlaced(s, th) && InstalledOk(s) && InstalledOk(s') && s.installed <= s'.installed
    ensures TriedPlaced(s', th)
  {
    hide InstalledOk;
    forall i: nat | i < |th.tried| ensures Placed(s', th.tried[i], th.base) {
      assert Placed(s, th.tried[i], th.base);
      OrdinalStays(s, s', th.tried[i]);
    }
    forall i: nat, j: nat | i < j < |th.tried| ensures Older(s', th.tried[i], th.tried[j]) {
      assert Older(s, th.tried[i], th.tried[j]);
      OlderStays(s, s', th.tried[i], th.tried[j]);
    }
  }

  lemma MoverPlaced(p: Params, s: State, st: Step, s': State)
    requires Enabled(p, s, st) && !st.BeginCall? && !st.BeginClose? && s.installed <= s'.installed
    requires InstalledOk(s) && InstalledOk(s') && TriedPlaced(s, s.threads[st.t]) && CandidateOk(s, s.threads[st.t])
    ensures TriedPlaced(s', Moved(p, s, st))
  {
    assert At(s, st.t);
    hide Moved, Enabled, InstalledOk, Placed, Older;
    MovedHistory(p, s, st);
    var th, th' := s.threads[st.t], Moved(p, s, st);
    EnteredPlaced(s, th, th', Enters(st, th.pc));
    PlacedStays(s, s', th');
  }

  lemma EnteredPlaced(s: State, th: Thread, th': Thread, enters: bool)
    requires TriedPlaced(s, th) && CandidateOk(s, th) && th'.base == th.base
    requires enters ==> th.pc.Alloc? && th.pc.m.User?
    requires th'.tried == th.tried + (if enters then [th.pc.c] else [])
    ensures TriedPlaced(s, th')
  {
    hide Placed, Older;
  }

  lemma CurrentIsNewest(s: State, th: Thread)
    requires InstalledOk(s) && TriedPlaced(s, th) && th.base <= |s.installed| && s.current.Some?
    ensures Placed(s, s.current.value, th.base)
    ensures forall i: nat | i < |th.tried| :: Older(s, th.tried[i], s.current.value) || th.tried[i] == s.current.value
  {
    assert IsKth(s, |s.installed| - 1);
    forall i: nat | i < |th.tried|
      ensures Older(s, th.tried[i], s.current.value) || th.tried[i] == s.current.value
    {
      assert Placed(s, th.tried[i], th.base) && OrdinalOk(s, th.tried[i]);
    }
  }

  lemma MoverCandidate(p: Params, s: State, st: Step, s': State)
    requires Enabled(p, s, st) && s' == Apply(p, s, st) && !st.BeginCall? && !st.BeginClose? && Grows(s, s')
    requires InstalledOk(s) && InstalledOk(s') && RetryOk(s, s.threads[st.t])
    requires LoopMove(s, st, Pc(s, st.t), Moved(p, s, st).pc)
    ensures CandidateOk(s', Moved(p, s, st))
  {
    assert At(s, st.t);
    hide Apply, Moved, Enabled, InstalledOk, Placed, Older, TriedPlaced;
    MovedHistory(p, s, st);
    var th, th' := s.threads[st.t], Moved(p, s, st);
    if Candidate(th'.pc).Some? {
      var c := Candidate(th'.pc).value;
      if Installs(st) && th.pc == Install(c) {
        NewestOfAll(p, s, st, s', th);
      } else {
        if LoadsCurrent(st) && Candidate(th'.pc) == s.current { CurrentIsNewest(s, th); }
        assert CandidateOk(s, th');
        CandidateStays(s, s', th');
      }
    }
  }

  lemma NewestOfAll(p: Params, s: State, st: Step, s': State, th: Thread)
    requires Enabled(p, s, st) && s' == Apply(p, s, st) && Installs(st) && InstalledOk(s) && InstalledOk(s')
    requires TriedPlaced(s, th) && th.base <= |s.installed|
    ensures Pc(s, st.t).Install? && Placed(s', Pc(s, st.t).c, th.base)
    ensures forall i: nat | i < |th.tried| :: Older(s', th.tried[i], Pc(s, st.t).c)
  {
    hide Apply, InstalledOk;
    InstalledMoves(p, s, st, s');
    InstallerOk(p, s, st);
    OrdinalMoves(p, s, st, s', Pc(s, st.t).c);
    forall i: nat | i < |th.tried| ensures Older(s', th.tried[i], Pc(s, st.t).c) {
      assert Placed(s, th.tried[i], th.base);
      OrdinalStays(s, s', th.tried[i]);
      assert OrdinalOk(s, th.tried[i]) by { InstalledIsOrdered(s, th.tried[i]); }
    }
  }

  lemma InstalledIsOrdered(s: State, c: nat)
    requires InstalledOk(s) && c < |s.conns|
    ensures OrdinalOk(s, c)
  {
  }

  lemma MoverBudgets(p: Params, s: State, st: Step)
    requires Enabled(p, s, st) && !st.BeginCall? && !st.BeginClose? && BudgetOk(s.threads[st.t])
    requires Suits(s.threads[st.t].kind, Pc(s, st.t)) && (s.threads[st.t].kind == Connector ==> s.threads[st.t].budget == 0)
    ensures BudgetOk(Moved(p, s, st))
  {
    assert At(s, st.t);
    hide Moved, Enabled, Attempt;
    MovedHistory(p, s, st);
    MoverBudget(p, s, st);
    MoverAttempt(p, s, st);
  }

  lemma MoverWrites(p: Params, s: State, st: Step)
    requires Enabled(p, s, st) && !st.BeginCall? && !st.BeginClose? && WritesOk(s.threads[st.t])
    requires LoopMove(s, st, Pc(s, st.t), Moved(p, s, st).pc)
    ensures WritesOk(Moved(p, s, st))
  {
    assert At(s, st.t);
    hide Moved, Enabled, Target, Candidate, Chosen, Resends;
    MovedHistory(p, s, st);
  }

  lemma MoverRetry(p: Params, s: State, st: Step, s': State)
    requires RetriesOk(s) && WaitersOk(s) && ErrorsOk(s) && RolesOk(s) && InstalledOk(s) && InstalledOk(s')
    requires Enabled(p, s, st) && s' == Apply(p, s, st) && !st.BeginCall? && !st.BeginClose? && Grows(s, s')
    requires s.threads[st.t].kind == Connector ==> s.threads[st.t].budget == 0
    ensures RetryOk(s', Moved(p, s, st))
  {
    assert At(s, st.t);
    hide Apply, Moved, Enabled, InstalledOk, WaitersOk, TriedDead, TriedPlaced, CandidateOk, BudgetOk, WritesOk, Suits, HoldsLock;
    hide LoopMove, CleanReceipt, ConnsGrow, WaitersGrow;
    var th := s.threads[st.t];
    assert RetryOk(s, th) && RoleOk(s, st.t) && PcOk(s, th.pc);
    hide ErrorsOk, RolesOk, PcOk;
    ReceiptIsClean(p, s, st);
    MoverLoop(p, s, st);
    MoverTried(p, s, st, s');
    MoverPlaced(p, s, st, s');
    MoverCandidate(p, s, st, s');
    MoverBudgets(p, s, st);
    MoverWrites(p, s, st);
    MovedHistory(p, s, st);
  }

  /** A new thread has no history. */
  lemma StartRetry(s: State, cmd: Command)
    ensures RetryOk(s, NewCaller(s, cmd)) && RetryOk(s, NEW_CLOSER) && RetryOk(s, NewReader(|s.conns|))
  {
    hide RetryOk;
    BlankRetry(s, NewCaller(s, cmd));
    BlankRetry(s, NEW_CLOSER);
    BlankRetry(s, NewReader(|s.conns|));
  }

  lemma BlankRetry(s: State, th: Thread)
    requires th.tried == [] && th.own == th.establishes == th.writes == 0 && Candidate(th.pc) == None && Target(th.pc) == None
    requires Attempt(th) == 0 && (th.kind == Caller ==> th.budget == REDIALS) && th.kind != Connector && th.base <= |s.installed|
    ensures RetryOk(s, th)
  {
    hide Candidate, Target, Attempt;
  }

  lemma RetriesStep(p: Params, s: State, st: Step, s': State)
    requires RetriesOk(s) && WaitersOk(s) && ErrorsOk(s) && RolesOk(s) && InstalledOk(s) && InstalledOk(s')
    requires Enabled(p, s, st) && s' == Apply(p, s, st)
    requires s.threads[0].budget == 0
    ensures RetriesOk(s')
  {
    hide Apply, Moved, Enabled, InstalledOk, WaitersOk, ErrorsOk, RetryOk, Suits, HoldsLock;
    StepGrows(p, s, st, s');
    StepThreads(p, s, st, s');
    forall t: nat | t < |s'.threads| ensures RetryOk(s', s'.threads[t]) {
      if !st.BeginCall? && !st.BeginClose? && t == st.t {
        assert RoleOk(s, t);
        MoverRetry(p, s, st, s');
      } else if t < |s.threads| {
        assert RetryOk(s, s.threads[t]);
        RetryStays(s, s', s.threads[t]);
      } else {
        NewRetry(p, s, st, s', t);
      }
    }
  }

  lemma NewRetry(p: Params, s: State, st: Step, s': State, t: nat)
    requires InstalledOk(s) && InstalledOk(s') && Grows(s, s')
    requires Enabled(p, s, st) && s' == Apply(p, s, st) && |s.threads| <= t < |s'.threads|
    ensures RetryOk(s', s'.threads[t])
  {
    hide Apply, Moved, Enabled, InstalledOk, RetryOk, Grows;
    StepThreads(p, s, st, s');
    StartRetry(s, if st.BeginCall? then st.cmd else Command([], []));
    RetryStays(s, s', s'.threads[t]);
  }

  /** The connector never spends a budget. */
  lemma ConnectorBudget(p: Params, s: State, st: Step, s': State)
    requires |s.threads| > 0 && s.threads[0].budget == 0 && Enabled(p, s, st) && s' == Apply(p, s, st)
    ensures |s'.threads| > 0 && s'.threads[0].budget == 0
  {
    hide Apply, Enabled, Moved;
    StepThreads(p, s, st, s');
    if !st.BeginCall? && !st.BeginClose? { MoverBudget(p, s, st); }
  }

  lemma InitRetriesOk()
    ensures RetriesOk(Init())
  {
  }
}
