/**
 Ids in the running client. An id names one outstanding call as long as fewer
 than 2^32-1 ids are allocated while that call is pending; then registration
 overwrites nothing, and no waiter is forgotten before its caller turns away.
 */
module ClientIds {
  import opened Wrappers
  import opened MsgPack
  import opened ConnTable
  import opened Client
  import opened ClientWaiters
  import opened ClientControl
  import opened ClientHistory
  import Handshake
  import Ids

  // --- the invariant ---

  /** Every id came from the counter, in order, for the thread that holds it. */
  ghost predicate Numbered(s: State, no: nat, id: u32, t: nat) {
    no < |s.allocs| && s.allocs[no] == t && id == Ids.IdOf(no)
  }

  ghost predicate ThreadNumbered(s: State, t: nat)
    requires At(s, t)
  {
    Pc(s, t).Register? ==> Numbered(s, Pc(s, t).no, Pc(s, t).id, t)
  }

  ghost predicate WaiterNumbered(s: State, x: Waiter) {
    Numbered(s, x.no, x.id, x.owner)
  }

  ghost predicate IdsOk(s: State) {
    && s.nextID == Ids.CounterAfter(|s.allocs|)
    && (forall t: nat | t < |s.threads| :: ThreadNumbered(s, t))
    && (forall w: nat | w < |s.waiters| :: WaiterNumbered(s, s.waiters[w]))
  }

  lemma NumberingMoves(p: Params, s: State, st: Step, s': State)
    requires Enabled(p, s, st) && s' == Apply(p, s, st) && s.nextID == Ids.CounterAfter(|s.allocs|)
    ensures s'.nextID == Ids.CounterAfter(|s'.allocs|)
    ensures s'.allocs == s.allocs + (if st.Dispatch? && st.d.AllocId? then [st.t] else [])
  {
    hide ApplyGate, ApplyLive, ApplyDispatch, ApplyDelivery, LiveEnabled, DispatchEnabled, DeliveryEnabled;
    match st {
      case BeginCall(_) =>
      case BeginClose =>
      case Gate(t, g) => GateFields(p, s, t, g);
      case Live(t, l) => LiveFields(p, s, t, l);
      case Dispatch(t, d) =>
        DispatchFields(p, s, t, d);
        Ids.AllocIsNth(|s.allocs|);
      case Delivery(t, v) => DeliveryFields(p, s, t, v);
    }
  }

  lemma MoverNumbered(p: Params, s: State, st: Step, s': State)
    requires IdsOk(s) && Enabled(p, s, st) && s' == Apply(p, s, st) && !st.BeginCall? && !st.BeginClose?
    requires At(s', st.t) && s'.threads[st.t] == Moved(p, s, st)
    requires s'.allocs == s.allocs + (if st.Dispatch? && st.d.AllocId? then [st.t] else [])
    ensures ThreadNumbered(s', st.t)
  {
    hide ApplyGate, ApplyLive, ApplyDispatch, ApplyDelivery, AfterDispatch, AfterKill, OnBody, Received, Alive;
    hide Handshake.Opening, Frames, Handshake.Learned;
    if st.Dispatch? && st.d.AllocId? { Ids.AllocIsNth(|s.allocs|); }
    NotRegister(p, s, st);
  }

  /** Only an allocation leads to a registration. */
  lemma NotRegister(p: Params, s: State, st: Step)
    requires Enabled(p, s, st) && !st.BeginCall? && !st.BeginClose?
    ensures Moved(p, s, st).pc.Register? ==> st.Dispatch? && st.d.AllocId?
  {
    hide Apply, OnBody, Alive, Received;
    hide Handshake.Opening, Frames, Handshake.Learned;
  }

  lemma WaitersNumbered(p: Params, s: State, st: Step, s': State)
    requires IdsOk(s) && Enabled(p, s, st) && s' == Apply(p, s, st) && s.allocs <= s'.allocs
    ensures forall w: nat | w < |s'.waiters| :: WaiterNumbered(s', s'.waiters[w])
  {
    hide ApplyGate, ApplyLive, ApplyDispatch, ApplyDelivery, LiveEnabled, DeliveryEnabled;
    match st {
      case BeginCall(_) =>
      case BeginClose =>
      case Gate(t, g) => GateFields(p, s, t, g);
      case Live(t, l) => LiveFields(p, s, t, l);
      case Dispatch(t, d) =>
        DispatchWaiters(p, s, t, d);
        assert ThreadNumbered(s, t);
      case Delivery(t, v) => DeliveryWaiters(p, s, t, v);
    }
  }

  lemma IdsStep(p: Params, s: State, st: Step, s': State)
    requires IdsOk(s) && Enabled(p, s, st) && s' == Apply(p, s, st)
    ensures IdsOk(s')
  {
    hide Apply, Enabled, Moved, WaiterNumbered;
    StepThreads(p, s, st, s');
    NumberingMoves(p, s, st, s');
    WaitersNumbered(p, s, st, s');
    forall t: nat | t < |s'.threads| ensures ThreadNumbered(s', t) {
      if !st.BeginCall? && !st.BeginClose? && t == st.t {
        MoverNumbered(p, s, st, s');
      } else if t < |s.threads| { assert ThreadNumbered(s, t); }
    }
  }

  // --- the window ---

  /** The allocation a thread inside dispatchOnce has outstanding. */
  function Outstanding(s: State, pc: PC): Option<nat> {
    if pc.Register? then Some(pc.no)
    else if Slot(pc).Some? && Slot(pc).value < |s.waiters| then Some(s.waiters[Slot(pc).value].no)
    else None
  }

  /** Fewer than 2^32-1 allocations followed that of any outstanding call. */
  ghost predicate Window(s: State) {
    forall t: nat | t < |s.threads| :: Recent(s, Outstanding(s, Pc(s, t)))
  }

  predicate Recent(s: State, no: Option<nat>) { no.Some? ==> |s.allocs| - no.value <= Ids.CYCLE }

  /** The ids of outstanding calls are pairwise distinct. */
  lemma OutstandingAreDistinct(s: State, t: nat, u: nat)
    requires WaitersOk(s) && IdsOk(s) && Window(s) && At(s, t) && At(s, u) && t != u
    requires Outstanding(s, Pc(s, t)).Some? && Outstanding(s, Pc(s, u)).Some?
    ensures Ids.IdOf(Outstanding(s, Pc(s, t)).value) != Ids.IdOf(Outstanding(s, Pc(s, u)).value)
  {
    hide Ids.IdOf;
    OutstandingIsOwn(s, t);
    OutstandingIsOwn(s, u);
    var m, n := Outstanding(s, Pc(s, t)).value, Outstanding(s, Pc(s, u)).value;
    assert Recent(s, Outstanding(s, Pc(s, t))) && Recent(s, Outstanding(s, Pc(s, u)));
    if m < n { Ids.IdsDistinctInWindow(m, n); } else { Ids.IdsDistinctInWindow(n, m); }
  }

  lemma OutstandingIsOwn(s: State, t: nat)
    requires WaitersOk(s) && IdsOk(s) && At(s, t) && Outstanding(s, Pc(s, t)).Some?
    ensures var no := Outstanding(s, Pc(s, t)).value; no < |s.allocs| && s.allocs[no] == t
  {
    assert ThreadOk(s, t) && ThreadNumbered(s, t);
    if Slot(Pc(s, t)).Some? { assert WaiterNumbered(s, s.waiters[Slot(Pc(s, t)).value]); }
  }

  /** Whoever holds a table entry has it outstanding under its own id. */
  lemma EntryIsOutstanding(s: State, c: nat, id: u32)
    requires WaitersOk(s) && IdsOk(s) && c < |s.conns| && id in s.conns[c].table.pending
    ensures var w := s.conns[c].table.pending[id];
      w < |s.waiters| && At(s, s.waiters[w].owner) && Slot(Pc(s, s.waiters[w].owner)) == Some(w)
      && Outstanding(s, Pc(s, s.waiters[w].owner)) == Some(s.waiters[w].no) && id == Ids.IdOf(s.waiters[w].no)
  {
    hide Ids.IdOf;
    assert PointsToIts(s, c, id);
    var w := s.conns[c].table.pending[id];
    assert IsRegistered(s, w) && WaiterNumbered(s, s.waiters[w]);
  }

  /** Registration overwrites nothing. */
  lemma RegistrationIsFresh(s: State, t: nat)
    requires WaitersOk(s) && IdsOk(s) && Window(s) && At(s, t) && Pc(s, t).Register? && Pc(s, t).c < |s.conns|
    ensures Pc(s, t).id !in s.conns[Pc(s, t).c].table.pending
  {
    hide Ids.IdOf;
    var c, id := Pc(s, t).c, Pc(s, t).id;
    if id in s.conns[c].table.pending {
      EntryIsOutstanding(s, c, id);
      assert ThreadNumbered(s, t);
      OutstandingAreDistinct(s, t, s.waiters[s.conns[c].table.pending[id]].owner);
    }
  }

  /** A caller that deletes its id deletes its own waiter, if anything. */
  lemma RemovalIsOwn(s: State, t: nat)
    requires WaitersOk(s) && IdsOk(s) && Window(s) && At(s, t) && Slot(Pc(s, t)).Some? && Pc(s, t).c < |s.conns|
    ensures var w := Slot(Pc(s, t)).value;
      w < |s.waiters|
      && (s.waiters[w].id in s.conns[Pc(s, t).c].table.pending ==>
            s.conns[Pc(s, t).c].table.pending[s.waiters[w].id] == w)
  {
    hide Ids.IdOf;
    assert ThreadOk(s, t);
    var c, w := Pc(s, t).c, Slot(Pc(s, t)).value;
    var id := s.waiters[w].id;
    assert WaiterNumbered(s, s.waiters[w]);
    if id in s.conns[c].table.pending {
      EntryIsOutstanding(s, c, id);
      var u := s.waiters[s.conns[c].table.pending[id]].owner;
      if u != t { OutstandingAreDistinct(s, t, u); }
    }
  }

  // --- nobody is forgotten ---

  /** A caller inside dispatchOnce has a waiter that is not forgotten. */
  ghost predicate NotForgotten(s: State, t: nat)
    requires At(s, t)
  {
    var slot := Slot(Pc(s, t));
    slot.Some? ==> slot.value < |s.waiters| && s.waiters[slot.value].place != Gone
  }

  ghost predicate NoneForgotten(s: State) {
    forall t: nat | t < |s.threads| :: NotForgotten(s, t)
  }

  /** The id a dispatch step deletes from the table of its connection. */
  function Deletes(s: State, pc: PC, d: DispatchAction): Option<u32> {
    if d.RegisterWaiter? && pc.Register? && Alive(s, pc.c) then Some(pc.id)
    else if (d.RemoveAfterWrite? || d.RemoveOnLeave?) && Slot(pc).Some? && Slot(pc).value < |s.waiters|
    then Some(s.waiters[Slot(pc).value].id)
    else None
  }

  ghost predicate Hit(s: State, pc: PC, d: DispatchAction, w: nat) {
    var id := Deletes(s, pc, d);
    id.Some? && ConnIndex(pc) < |s.conns| && id.value in s.conns[ConnIndex(pc)].table.pending
    && s.conns[ConnIndex(pc)].table.pending[id.value] == w
  }

  function ConnIndex(pc: PC): nat {
    if pc.Register? || Slot(pc).Some? then pc.c else 0
  }

  lemma ForgetPlaces(s: State, c: nat, id: u32)
    ensures forall w: nat | w < |s.waiters| ::
      Forget(s, c, id).waiters[w].place == s.waiters[w].place
      || (c < |s.conns| && id in s.conns[c].table.pending && s.conns[c].table.pending[id] == w)
  {
  }

  lemma DispatchPlaces(p: Params, s: State, t: nat, d: DispatchAction)
    requires At(s, t) && DispatchEnabled(s, Pc(s, t), d)
    ensures var s' := ApplyDispatch(p, s, t, d);
      |s.waiters| <= |s'.waiters|
      && (forall w: nat | w < |s.waiters| :: s'.waiters[w].place == s.waiters[w].place || Hit(s, Pc(s, t), d, w))
  {
    hide AfterDispatch, Received, RequestOf, Forget;
    var id := Deletes(s, Pc(s, t), d);
    if id.Some? { ForgetPlaces(s, ConnIndex(Pc(s, t)), id.value); }
    DispatchWaiters(p, s, t, d);
  }

  lemma ActPlaces(s: State, t: nat, a: Action)
    requires At(s, t) && Pc(s, t).Reading?
    ensures var s' := Act(s, t, a);
      |s'.waiters| == |s.waiters|
      && (forall w: nat | w < |s.waiters| :: s'.waiters[w].place == s.waiters[w].place || s'.waiters[w].place != Gone)
  {
    hide Removed;
  }

  lemma DeliveryPlaces(p: Params, s: State, t: nat, v: DeliveryAction)
    requires At(s, t) && DeliveryEnabled(s, Pc(s, t), v)
    ensures var s' := ApplyDelivery(p, s, t, v);
      |s'.waiters| == |s.waiters|
      && (forall w: nat | w < |s.waiters| :: s'.waiters[w].place == s.waiters[w].place || s'.waiters[w].place != Gone)
  {
    hide AfterKill, OnBody, Drained, Poisoned, Act;
    if v.ReadFrame? { ActPlaces(s, t, Decision(p, s, Pc(s, t).c, v.body)); }
  }

  /** No other caller's waiter is hit. */
  lemma OthersAreMissed(s: State, t: nat, d: DispatchAction, u: nat)
    requires WaitersOk(s) && IdsOk(s) && Window(s) && At(s, t) && DispatchEnabled(s, Pc(s, t), d)
    requires At(s, u) && u != t && Slot(Pc(s, u)).Some?
    ensures !Hit(s, Pc(s, t), d, Slot(Pc(s, u)).value)
  {
    if ConnIndex(Pc(s, t)) >= |s.conns| { return; }
    assert ThreadOk(s, u) && ThreadOk(s, t);
    if d.RegisterWaiter? { RegistrationIsFresh(s, t); }
    if d.RemoveAfterWrite? || d.RemoveOnLeave? { RemovalIsOwn(s, t); }
  }

  /** Which steps keep or make a waiter outstanding. */
  lemma SlotMoves(p: Params, s: State, st: Step)
    requires Enabled(p, s, st) && !st.BeginCall? && !st.BeginClose?
    ensures var slot := Slot(Moved(p, s, st).pc);
      slot.Some? ==>
        && st.Dispatch? && Deletes(s, Pc(s, st.t), st.d) == (if st.d.RegisterWaiter? then Some(Pc(s, st.t).id) else None)
        && (if st.d.RegisterWaiter? then Alive(s, Pc(s, st.t).c) && slot == Some(|s.waiters|) else slot == Slot(Pc(s, st.t)))
  {
    hide Apply, OnBody, Alive, Received;
    hide Handshake.Opening, Frames, Handshake.Learned;
  }

  lemma MoverNotForgotten(p: Params, s: State, st: Step, s': State)
    requires Enabled(p, s, st) && s' == Apply(p, s, st) && !st.BeginCall? && !st.BeginClose?
    requires At(s, st.t) && NotForgotten(s, st.t) && At(s', st.t) && s'.threads[st.t] == Moved(p, s, st)
    ensures NotForgotten(s', st.t)
  {
    hide ApplyDispatch, DispatchEnabled, Moved;
    SlotMoves(p, s, st);
    if st.Dispatch? {
      DispatchPlaces(p, s, st.t, st.d);
      DispatchWaiters(p, s, st.t, st.d);
    }
  }

  lemma OtherNotForgotten(p: Params, s: State, st: Step, s': State, u: nat)
    requires WaitersOk(s) && IdsOk(s) && Window(s) && Enabled(p, s, st) && s' == Apply(p, s, st)
    requires At(s, u) && NotForgotten(s, u) && u != Mover(s, st) && At(s', u) && Pc(s', u) == Pc(s, u)
    ensures NotForgotten(s', u)
  {
    hide ApplyGate, ApplyLive, ApplyDispatch, ApplyDelivery, LiveEnabled, DispatchEnabled, DeliveryEnabled;
    hide WaitersOk, IdsOk, Window, Hit;
    match st {
      case BeginCall(_) =>
      case BeginClose =>
      case Gate(t, g) => GateFields(p, s, t, g);
      case Live(t, l) => LiveFields(p, s, t, l);
      case Dispatch(t, d) =>
        DispatchPlaces(p, s, t, d);
        if Slot(Pc(s, u)).Some? { OthersAreMissed(s, t, d, u); }
      case Delivery(t, v) => DeliveryPlaces(p, s, t, v);
    }
  }

  lemma NoneForgottenStep(p: Params, s: State, st: Step, s': State)
    requires WaitersOk(s) && IdsOk(s) && Window(s) && NoneForgotten(s) && Enabled(p, s, st) && s' == Apply(p, s, st)
    ensures NoneForgotten(s')
  {
    hide Apply, Enabled, Moved, WaitersOk, IdsOk, Window;
    StepThreads(p, s, st, s');
    forall t: nat | t < |s'.threads| ensures NotForgotten(s', t) {
      if !st.BeginCall? && !st.BeginClose? && t == st.t {
        assert NotForgotten(s, t);
        MoverNotForgotten(p, s, st, s');
      } else if t < |s.threads| {
        assert NotForgotten(s, t);
        OtherNotForgotten(p, s, st, s', t);
      }
    }
  }
}
