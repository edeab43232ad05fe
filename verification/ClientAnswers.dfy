/** What a call returns: a value or a server error only from the response to its own frame. */
module ClientAnswers {
  import opened Wrappers
  import opened ClientTypes
  import opened Client
  import opened ClientWaiters
  import opened ClientHistory
  import opened ClientControl
  import opened ClientErrors
  import opened ClientRoles
  import opened ClientRouting
  import Handshake

  function OutcomeOf(pc: PC): Option<Outcome> {
    if pc.Release? || pc.Done? then Some(pc.out) else None
  }

  predicate FromServer(out: Outcome) { out.Ok? || out.error.ServerError? }

  /** Waiter w brought thread t this outcome, in answer to the frame t wrote. */
  ghost predicate AnswerIs(s: State, t: nat, out: Outcome, w: nat) {
    && w < |s.waiters| && s.waiters[w].owner == t
    && |s.waiters[w].sends| > 0 && s.waiters[w].sends[0].Got? && Answer(s.waiters[w].sends[0].resp) == out
    && OnTheWire(s, s.waiters[w].conn, t, User, s.waiters[w].id)
  }

  ghost predicate Answered(s: State, t: nat, out: Outcome) {
    exists w: nat :: AnswerIs(s, t, out, w)
  }

  ghost predicate AnswerOk(s: State, t: nat)
    requires At(s, t)
  {
    var out := OutcomeOf(Pc(s, t));
    s.threads[t].kind == Caller && out.Some? && FromServer(out.value) ==> Answered(s, t, out.value)
  }

  ghost predicate AnswersOk(s: State) {
    forall t: nat | t < |s.threads| :: AnswerOk(s, t)
  }

  lemma AnsweredStays(s: State, s': State, t: nat, out: Outcome)
    requires Answered(s, t, out) && Grows(s, s')
    ensures Answered(s', t, out)
  {
    hide OnTheWire;
    var w: nat :| AnswerIs(s, t, out, w);
    assert WaiterGrows(s.waiters[w], s'.waiters[w]);
    WireStays(s, s', s.waiters[w].conn, t, User, s.waiters[w].id);
    assert AnswerIs(s', t, out, w);
  }

  // --- control flow ---

  predicate HasOutcome(s: State, st: Step, pc: PC, out: Outcome) {
    st.Dispatch? && st.d.Receive? && pc.Awaiting? && pc.m.User? && pc.w < |s.waiters| && s.waiters[pc.w].chan.Some?
    && Received(s.waiters[pc.w].chan.value) == out
  }

  predicate OutcomeMove(s: State, st: Step, pc: PC, pc': PC) {
    OutcomeOf(pc').Some? && FromServer(OutcomeOf(pc').value) ==>
      OutcomeOf(pc) == OutcomeOf(pc') || HasOutcome(s, st, pc, OutcomeOf(pc').value)
  }

  lemma GateOutcome(p: Params, s: State, t: nat, g: GateAction)
    requires At(s, t) && GateEnabled(p, s, Pc(s, t), g) && !IsClosing(Pc(s, t))
    ensures OutcomeMove(s, Gate(t, g), Pc(s, t), GatePc(s, Pc(s, t), g))
  {
  }

  lemma LiveOutcome(p: Params, s: State, t: nat, l: LiveAction)
    requires At(s, t) && LiveEnabled(s, Pc(s, t), l) && s.threads[t].kind == Caller && CleanPc(Pc(s, t))
    ensures OutcomeMove(s, Live(t, l), Pc(s, t), LivePc(p, s, s.threads[t], l))
  {
    hide Alive, Frames, Handshake.Opening, Handshake.Learned;
  }

  lemma DispatchOutcome(p: Params, s: State, t: nat, d: DispatchAction)
    requires At(s, t) && DispatchEnabled(s, Pc(s, t), d) && CleanPc(Pc(s, t))
    ensures OutcomeMove(s, Dispatch(t, d), Pc(s, t), DispatchPc(s, s.threads[t], d))
  {
    hide Alive, Received;
  }

  lemma DeliveryOutcome(p: Params, s: State, t: nat, v: DeliveryAction)
    requires At(s, t) && DeliveryEnabled(s, Pc(s, t), v) && !IsClosing(Pc(s, t)) && !IsReading(Pc(s, t))
    ensures OutcomeMove(s, Delivery(t, v), Pc(s, t), DeliveryPc(p, s, s.threads[t], v))
  {
    hide OnBody;
  }

  lemma MoverOutcome(p: Params, s: State, st: Step)
    requires Enabled(p, s, st) && !st.BeginCall? && !st.BeginClose?
    requires s.threads[st.t].kind == Caller && Suits(Caller, Pc(s, st.t)) && CleanPc(Pc(s, st.t))
    ensures OutcomeMove(s, st, Pc(s, st.t), Moved(p, s, st).pc)
  {
    hide OutcomeMove, GatePc, LivePc, DispatchPc, DeliveryPc;
    match st {
      case Gate(t, g) => GateOutcome(p, s, t, g);
      case Live(t, l) => LiveOutcome(p, s, t, l);
      case Dispatch(t, d) => DispatchOutcome(p, s, t, d);
      case Delivery(t, v) => DeliveryOutcome(p, s, t, v);
    }
  }

  // --- every step ---

  /** A received answer is the one response ever sent to the caller's waiter. */
  lemma ReceiptAnswers(s: State, st: Step, t: nat, out: Outcome)
    requires WaitersOk(s) && AllSentOk(s) && RoutingOk(s) && At(s, t) && HasOutcome(s, st, Pc(s, t), out) && FromServer(out)
    ensures Answered(s, t, out)
  {
    hide OnTheWire;
    var w := Pc(s, t).w;
    assert ThreadOk(s, t) && ChannelOk(s, w) && SentOk(s, s.waiters[w]) && WroteIt(s, t);
    assert s.waiters[w].sends[0] in s.waiters[w].sends;
    assert AnswerIs(s, t, out, w);
  }

  lemma AnswersStep(p: Params, s: State, st: Step, s': State)
    requires AnswersOk(s) && WaitersOk(s) && ErrorsOk(s) && RoutingOk(s) && RolesOk(s)
    requires Enabled(p, s, st) && s' == Apply(p, s, st)
    ensures AnswersOk(s')
  {
    hide Apply, Enabled, Moved, Answered, WaitersOk, RoutingOk, Suits, HoldsLock, CleanPc;
    StepGrows(p, s, st, s');
    StepThreads(p, s, st, s');
    forall t: nat | t < |s'.threads| ensures AnswerOk(s', t) {
      if t < |s.threads| {
        assert AnswerOk(s, t) && RoleOk(s, t);
        var out := OutcomeOf(Pc(s', t));
        if s.threads[t].kind == Caller && out.Some? && FromServer(out.value) {
          if t == Mover(s, st) {
            assert PcOk(s, Pc(s, t));
            MoverOutcome(p, s, st);
            if HasOutcome(s, st, Pc(s, t), out.value) { ReceiptAnswers(s, st, t, out.value); }
          }
          AnsweredStays(s, s', t, out.value);
        }
      }
    }
  }

  lemma InitAnswersOk()
    ensures AnswersOk(Init())
  {
  }
}
