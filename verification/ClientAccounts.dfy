/** Every waiter a reader took was sent its response, or is in the hands of its reader. */
module ClientAccounts {
  import opened Values
  import opened Client
  import opened ClientWaiters
  import opened ClientControl
  import opened ClientTotals
  import opened ClientCounts
  import Codec
  import Handshake

  /** One for a waiter that was sent a response. */
  function Responded(x: Waiter): nat { if x.sends != [] && x.sends[0].Got? then 1 else 0 }

  function Responses(ws: seq<Waiter>): nat {
    if ws == [] then 0 else Responded(ws[0]) + Responses(ws[1..])
  }

  /** One for a reader with a response in its hands. */
  function Bringing(th: Thread): nat { if th.pc.Delivering? then 1 else 0 }

  ghost predicate AccountsOk(s: State) {
    s.taken == Responses(s.waiters) + Total(Bringing, s.threads)
  }

  lemma {:induction false} ResponsesStay(a: seq<Waiter>, b: seq<Waiter>)
    requires |a| <= |b| && forall i: nat | i < |b| :: Responded(b[i]) == (if i < |a| then Responded(a[i]) else 0)
    ensures Responses(a) == Responses(b)
    decreases |b|
  {
    hide Responded;
    if a != [] {
      assert forall i: nat | i < |b| - 1 :: b[1..][i] == b[i + 1];
      assert forall i: nat | i < |a| - 1 :: a[1..][i] == a[i + 1];
      ResponsesStay(a[1..], b[1..]);
    } else if b != [] {
      assert Responded(b[0]) == 0;
      assert forall i: nat | i < |b| - 1 :: b[1..][i] == b[i + 1];
      ResponsesStay(a, b[1..]);
    }
  }

  lemma {:induction false} OneMoreResponse(a: seq<Waiter>, b: seq<Waiter>, w: nat)
    requires w < |a| == |b| && Responded(a[w]) == 0 && Responded(b[w]) == 1
    requires forall i: nat | i < |b| && i != w :: Responded(b[i]) == Responded(a[i])
    ensures Responses(b) == Responses(a) + 1
    decreases |b|
  {
    hide Responded;
    assert forall i: nat | i < |b| - 1 :: b[1..][i] == b[i + 1];
    assert forall i: nat | i < |a| - 1 :: a[1..][i] == a[i + 1];
    if w == 0 {
      assert forall i: nat | i < |b| - 1 :: Responded(b[1..][i]) == Responded(a[1..][i]);
      ResponsesStay(a[1..], b[1..]);
    } else {
      assert forall i: nat | i < |b| - 1 && i != w - 1 :: Responded(b[1..][i]) == Responded(a[1..][i]);
      OneMoreResponse(a[1..], b[1..], w - 1);
    }
  }

  predicate Delivers(st: Step) { st.Delivery? && st.v.DeliverResponse? }

  lemma MoverBringing(p: Params, s: State, st: Step)
    requires Enabled(p, s, st) && !st.BeginCall? && !st.BeginClose?
    ensures Bringing(Moved(p, s, st)) + (if Delivers(st) then 1 else 0)
      == Bringing(s.threads[st.t]) + (if Bodies(p, s, st).Some? && Bodies(p, s, st).value.Match? then 1 else 0)
  {
    hide OnBody, Alive, Received, Frames, Handshake.Opening, Handshake.Learned;
  }

  lemma DispatchResponses(p: Params, s: State, t: nat, d: DispatchAction)
    requires At(s, t) && DispatchEnabled(s, Pc(s, t), d)
    ensures Responses(ApplyDispatch(p, s, t, d).waiters) == Responses(s.waiters)
  {
    hide ApplyDispatch;
    DispatchWaiters(p, s, t, d);
    ResponsesStay(s.waiters, ApplyDispatch(p, s, t, d).waiters);
  }

  lemma DeliveryResponses(p: Params, s: State, t: nat, v: DeliveryAction)
    requires WaitersOk(s) && At(s, t) && DeliveryEnabled(s, Pc(s, t), v)
    ensures Responses(ApplyDelivery(p, s, t, v).waiters) == Responses(s.waiters) + (if v.DeliverResponse? then 1 else 0)
  {
    hide ApplyDelivery, Responses;
    DeliveryWaiters(p, s, t, v);
    var s', pc := ApplyDelivery(p, s, t, v), Pc(s, t);
    assert ThreadOk(s, t);
    if v.DeliverResponse? || v.PoisonSend? {
      var w := if v.PoisonSend? then v.w else pc.w;
      assert w in Carried(pc) && ChannelOk(s, w);
    }
    if v.DeliverResponse? {
      OneMoreResponse(s.waiters, s'.waiters, pc.w);
    } else {
      ResponsesStay(s.waiters, s'.waiters);
    }
  }

  lemma ResponsesMove(p: Params, s: State, st: Step, s': State)
    requires WaitersOk(s) && Enabled(p, s, st) && s' == Apply(p, s, st)
    ensures Responses(s'.waiters) == Responses(s.waiters) + (if Delivers(st) then 1 else 0)
  {
    hide ApplyGate, ApplyLive, ApplyDispatch, ApplyDelivery, LiveEnabled, DispatchEnabled, DeliveryEnabled, WaitersOk, Responses;
    match st {
      case BeginCall(_) =>
      case BeginClose =>
      case Gate(t, g) => GateFields(p, s, t, g);
      case Live(t, l) => LiveFields(p, s, t, l);
      case Dispatch(t, d) => DispatchResponses(p, s, t, d);
      case Delivery(t, v) => DeliveryResponses(p, s, t, v);
    }
  }

  lemma AccountsStep(p: Params, s: State, st: Step, s': State)
    requires AccountsOk(s) && WaitersOk(s) && Enabled(p, s, st) && s' == Apply(p, s, st)
    ensures AccountsOk(s')
  {
    hide Apply, Enabled, Moved, Total, Responses, WaitersOk, Bringing, Bodies;
    StepCounters(p, s, st, s');
    ResponsesMove(p, s, st, s');
    if st.BeginCall? || st.BeginClose? {
      StartsBringNothing(s, st);
      TotalsStart(Bringing, p, s, st, s');
    } else {
      ReaderBringsNothing(|s.conns|);
      TotalsMove(Bringing, p, s, st, s');
      MoverBringing(p, s, st);
    }
  }

  lemma ReaderBringsNothing(c: nat)
    ensures Bringing(NewReader(c)) == 0
  {
  }

  lemma StartsBringNothing(s: State, st: Step)
    requires st.BeginCall? || st.BeginClose?
    ensures Bringing(if st.BeginCall? then NewCaller(s, st.cmd) else NEW_CLOSER) == 0
    ensures !Delivers(st)
    ensures forall p :: Bodies(p, s, st).None?
  {
  }

  /** The count of decoded frames goes up exactly when a body decodes to a response that is no push. */
  lemma DecodedMeans(p: Params, s: State, st: Step, s': State)
    requires Enabled(p, s, st) && s' == Apply(p, s, st)
    ensures s'.decoded == s.decoded + (if IsResponseFrame(p, st) then 1 else 0)
  {
    hide Apply, Codec.DecodeResponseBody;
    StepCounters(p, s, st, s');
  }

  predicate IsResponseFrame(p: Params, st: Step) {
    st.Delivery? && st.v.ReadFrame?
    && var resp := Codec.DecodeResponseBody(p.floats, st.v.body);
       resp.Some? && resp.value.id != PUSH_ID
  }

  lemma InitAccountsOk()
    ensures AccountsOk(Init())
  {
    assert Init().threads[1..] == [];
  }
}
