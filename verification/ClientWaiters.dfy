/**
 Where every waiter is. In each reachable state a waiter is in at most one
 place: its connection's table, the hands of one thread, or its channel.
 */
module ClientWaiters {
  import opened Wrappers
  import opened MsgPack
  import opened ClientTypes
  import opened ConnTable
  import opened Client
  import Codec
  import Handshake

  /** The waiter a thread inside dispatchOnce has registered. */
  function Slot(pc: PC): Option<nat> {
    if pc.Writing? || pc.Unregister? || pc.Awaiting? || pc.Leaving? then Some(pc.w) else None
  }

  /** The connection that waiter is registered on. */
  function SlotConn(pc: PC): nat
    requires Slot(pc).Some?
  {
    pc.c
  }

  /** The waiters a reader or poisoner has taken out of a table and not sent on yet. */
  function Carried(pc: PC): set<nat> {
    if pc.Delivering? then {pc.w} else if pc.Sending? then pc.drained else {}
  }

  // --- the invariant ---

  ghost predicate PointsToIts(s: State, c: nat, id: u32)
    requires c < |s.conns| && id in s.conns[c].table.pending
  {
    var w := s.conns[c].table.pending[id];
    w < |s.waiters| && s.waiters[w].conn == c && s.waiters[w].id == id && s.waiters[w].place == InTable
  }

  ghost predicate IsRegistered(s: State, w: nat)
    requires w < |s.waiters|
  {
    var x := s.waiters[w];
    && x.conn < |s.conns| && x.id in s.conns[x.conn].table.pending && s.conns[x.conn].table.pending[x.id] == w
    && x.owner < |s.threads| && Slot(Pc(s, x.owner)) == Some(w)
  }

  ghost predicate IsCarried(s: State, w: nat, t: nat) {
    t < |s.threads| && w in Carried(Pc(s, t))
  }

  /** At most one send ever, none before the waiter has left the table; the
      result stays in the channel until its caller takes it or leaves. */
  ghost predicate ChannelOk(s: State, w: nat)
    requires w < |s.waiters|
  {
    var x := s.waiters[w];
    if x.place == Sent then
      && |x.sends| == 1
      && (x.chan.Some? ==> x.chan.value == x.sends[0])
      && (x.owner < |s.threads| && Slot(Pc(s, x.owner)) == Some(w) ==> x.chan.Some?)
    else x.sends == [] && x.chan == None
  }

  ghost predicate ThreadOk(s: State, t: nat)
    requires t < |s.threads|
  {
    var pc := Pc(s, t);
    && (Slot(pc).Some? ==>
          var w := Slot(pc).value; w < |s.waiters| && s.waiters[w].owner == t && s.waiters[w].conn == SlotConn(pc))
    && (forall w | w in Carried(pc) :: w < |s.waiters| && s.waiters[w].place == Held(t))
  }

  ghost predicate TablesOk(s: State) {
    forall c: nat, id | c < |s.conns| && id in s.conns[c].table.pending :: PointsToIts(s, c, id)
  }

  ghost predicate RegisteredOk(s: State) {
    forall w: nat | w < |s.waiters| && s.waiters[w].place == InTable :: IsRegistered(s, w)
  }

  ghost predicate HeldOk(s: State) {
    forall w: nat | w < |s.waiters| && s.waiters[w].place.Held? :: IsCarried(s, w, s.waiters[w].place.holder)
  }

  ghost predicate ChannelsOk(s: State) {
    forall w: nat | w < |s.waiters| :: ChannelOk(s, w)
  }

  ghost predicate ThreadsOk(s: State) {
    forall t: nat | t < |s.threads| :: ThreadOk(s, t)
  }

  ghost predicate WaitersOk(s: State) {
    TablesOk(s) && RegisteredOk(s) && HeldOk(s) && ChannelsOk(s) && ThreadsOk(s)
  }

  // --- steps that touch no waiter ---

  ghost predicate SamePc(pc: PC, pc': PC) {
    Slot(pc) == Slot(pc') && Carried(pc) == Carried(pc') && (Slot(pc).Some? ==> SlotConn(pc) == SlotConn(pc'))
  }

  ghost predicate Untouched(s: State, s': State) {
    && s'.waiters == s.waiters
    && |s.conns| <= |s'.conns| && |s.threads| <= |s'.threads|
    && (forall c: nat | c < |s.conns| :: s'.conns[c].table == s.conns[c].table)
    && (forall c: nat | |s.conns| <= c < |s'.conns| :: s'.conns[c].table.pending == map[])
    && (forall t: nat | t < |s.threads| :: SamePc(Pc(s, t), Pc(s', t)))
    && (forall t: nat | |s.threads| <= t < |s'.threads| :: Slot(Pc(s', t)) == None && Carried(Pc(s', t)) == {})
  }

  lemma UntouchedKeeps(s: State, s': State)
    requires WaitersOk(s) && Untouched(s, s')
    ensures WaitersOk(s')
  {
    forall c: nat, id | c < |s'.conns| && id in s'.conns[c].table.pending ensures PointsToIts(s', c, id) {
      assert c < |s.conns|;
      assert PointsToIts(s, c, id);
    }
    forall w: nat | w < |s'.waiters| ensures ChannelOk(s', w) {
      assert ChannelOk(s, w);
    }
    forall w: nat | w < |s'.waiters| && s'.waiters[w].place == InTable ensures IsRegistered(s', w) {
      assert IsRegistered(s, w);
    }
    forall w: nat | w < |s'.waiters| && s'.waiters[w].place.Held? ensures IsCarried(s', w, s'.waiters[w].place.holder) {
      assert IsCarried(s, w, s.waiters[w].place.holder);
    }
    forall t: nat | t < |s'.threads| ensures ThreadOk(s', t) {
      if t < |s.threads| { assert ThreadOk(s, t); }
    }
  }

  /** One thread moves between places that have nothing to do with waiters. */
  lemma MoveUntouched(s: State, s': State, t: nat)
    requires At(s, t) && |s'.threads| == |s.threads| && s'.threads == s.threads[t := s'.threads[t]]
    requires s'.waiters == s.waiters && s'.conns == s.conns && SamePc(Pc(s, t), Pc(s', t))
    ensures Untouched(s, s')
  {
  }

  lemma GateUntouched(p: Params, s: State, t: nat, g: GateAction)
    requires At(s, t) && GateEnabled(p, s, Pc(s, t), g)
    ensures Untouched(s, ApplyGate(p, s, t, g))
  {
    hide Untouched;
    MoveUntouched(s, ApplyGate(p, s, t, g), t);
  }

  /** liveConn and establish have nothing to do with waiters. */
  lemma LiveIsBare(p: Params, s: State, th: Thread, l: LiveAction)
    requires LiveEnabled(s, th.pc, l)
    ensures SamePc(th.pc, LivePc(p, s, th, l))
  {
    hide Alive, Frames, Handshake.Opening, Handshake.Learned;
  }

  lemma LiveTables(p: Params, s: State, t: nat, l: LiveAction)
    requires At(s, t) && LiveEnabled(s, Pc(s, t), l)
    ensures var conns := LiveConns(p, s, t, l);
      && |s.conns| <= |conns|
      && (forall c: nat | c < |s.conns| :: conns[c].table == s.conns[c].table)
      && (forall c: nat | |s.conns| <= c < |conns| :: conns[c].table.pending == map[])
  {
    hide Frames;
  }

  lemma LiveUntouched(p: Params, s: State, t: nat, l: LiveAction)
    requires At(s, t) && LiveEnabled(s, Pc(s, t), l)
    ensures Untouched(s, ApplyLive(p, s, t, l))
  {
    hide LivePc, LiveConns, SamePc;
    LiveIsBare(p, s, s.threads[t], l);
    LiveTables(p, s, t, l);
    SamePcIsReflexive();
  }

  lemma SamePcIsReflexive()
    ensures forall pc :: SamePc(pc, pc)
  {
  }

  predicate TouchesWaiters(d: DispatchAction) {
    d.RegisterWaiter? || d.RemoveAfterWrite? || d.Receive? || d.RemoveOnLeave?
  }

  lemma DispatchUntouched(p: Params, s: State, t: nat, d: DispatchAction)
    requires At(s, t) && DispatchEnabled(s, Pc(s, t), d) && !TouchesWaiters(d)
    ensures Untouched(s, ApplyDispatch(p, s, t, d))
  {
    hide RequestOf;
    if !d.WriteSucceeds? {
      hide Untouched;
      MoveUntouched(s, ApplyDispatch(p, s, t, d), t);
    }
  }

  lemma DeliveryUntouched(p: Params, s: State, t: nat, v: DeliveryAction)
    requires At(s, t) && DeliveryEnabled(s, Pc(s, t), v)
    requires v.PoisonDone? || v.ReadFails? || v.CountDrop?
    ensures Untouched(s, ApplyDelivery(p, s, t, v))
  {
    hide Untouched;
    MoveUntouched(s, ApplyDelivery(p, s, t, v), t);
  }

  // --- steps that move a waiter ---

  /** What the invariant says of one waiter. */
  ghost predicate WaiterOk(s: State, w: nat)
    requires w < |s.waiters|
  {
    && ChannelOk(s, w)
    && (s.waiters[w].place == InTable ==> IsRegistered(s, w))
    && (s.waiters[w].place.Held? ==> IsCarried(s, w, s.waiters[w].place.holder))
  }

  /** A thread lets go only of a waiter that moves with it or is in no table. */
  ghost predicate HandsOk(s: State, pc: PC, pc': PC, moved: set<nat>) {
    && (Slot(pc').Some? ==> Slot(pc') == Slot(pc) || Slot(pc').value in moved || Slot(pc').value >= |s.waiters|)
    && (Slot(pc).Some? && Slot(pc') != Slot(pc) ==>
          Slot(pc).value in moved || (Slot(pc).value < |s.waiters| && s.waiters[Slot(pc).value].place != InTable))
    && Carried(pc) - moved <= Carried(pc')
  }

  ghost predicate OnlyThread(s: State, s': State, t: nat, moved: set<nat>) {
    && At(s, t) && |s'.threads| == |s.threads|
    && (forall u: nat | u < |s.threads| && u != t :: s'.threads[u] == s.threads[u])
    && HandsOk(s, Pc(s, t), Pc(s', t), moved)
  }

  /** The waiters in `moved` are held by no other thread; the rest are as they were. */
  ghost predicate OnlyWaiters(s: State, s': State, t: nat, moved: set<nat>) {
    && |s.waiters| <= |s'.waiters|
    && (forall w: nat | w < |s.waiters| && w !in moved :: s'.waiters[w] == s.waiters[w])
    && (forall w: nat | w < |s.waiters| && w in moved :: MayMove(s, s', t, w))
  }

  predicate MayMove(s: State, s': State, t: nat, w: nat)
    requires w < |s.waiters| && w < |s'.waiters|
  {
    s'.waiters[w].owner == s.waiters[w].owner && s'.waiters[w].conn == s.waiters[w].conn
    && (s.waiters[w].place.Held? ==> s.waiters[w].place.holder == t)
  }

  lemma ThreadMoves(s: State, s': State, t: nat, moved: set<nat>)
    requires At(s, t) && |s'.threads| == |s.threads| && s'.threads == s.threads[t := s'.threads[t]]
    requires HandsOk(s, Pc(s, t), Pc(s', t), moved)
    ensures OnlyThread(s, s', t, moved)
  {
    hide HandsOk;
  }

  lemma OneWaiterMoves(s: State, s': State, t: nat, w: nat)
    requires w < |s.waiters| == |s'.waiters| && s'.waiters == s.waiters[w := s'.waiters[w]] && MayMove(s, s', t, w)
    ensures OnlyWaiters(s, s', t, {w})
  {
    hide MayMove;
  }

  predicate SameEntry(s: State, s': State, c: nat, id: u32)
    requires c < |s.conns| == |s'.conns|
  {
    id in s.conns[c].table.pending && id in s'.conns[c].table.pending
    && s'.conns[c].table.pending[id] == s.conns[c].table.pending[id]
  }

  /** An entry stays unless its waiter moves, and a new one names its own waiter. */
  ghost predicate OnlyEntries(s: State, s': State, moved: set<nat>) {
    && |s'.conns| == |s.conns|
    && (forall c: nat, id | c < |s.conns| && id in s'.conns[c].table.pending ::
          PointsToIts(s', c, id) || (SameEntry(s, s', c, id) && s.conns[c].table.pending[id] !in moved))
    && (forall c: nat, id | c < |s.conns| && id in s.conns[c].table.pending ::
          s.conns[c].table.pending[id] in moved || SameEntry(s, s', c, id))
  }

  lemma TablesStay(s: State, s': State, moved: set<nat>)
    requires s'.conns == s.conns
    requires forall c: nat, id | c < |s.conns| && id in s.conns[c].table.pending :: s.conns[c].table.pending[id] !in moved
    ensures OnlyEntries(s, s', moved)
  {
    hide PointsToIts;
  }

  /** The argument behind every step that moves waiters. */
  lemma MovedKeep(s: State, s': State, t: nat, moved: set<nat>)
    requires WaitersOk(s) && OnlyThread(s, s', t, moved) && OnlyWaiters(s, s', t, moved) && OnlyEntries(s, s', moved)
    requires forall w: nat | w < |s'.waiters| && (w in moved || w >= |s.waiters|) :: WaiterOk(s', w)
    requires ThreadOk(s', t)
    ensures WaitersOk(s')
  {
    hide Slot, Carried, SlotConn, HandsOk;
    assert TablesOk(s') by {
      forall c: nat, id | c < |s'.conns| && id in s'.conns[c].table.pending ensures PointsToIts(s', c, id) {
        if SameEntry(s, s', c, id) { assert PointsToIts(s, c, id); }
      }
    }
    forall w: nat | w < |s'.waiters| ensures WaiterOk(s', w) {
      if w < |s.waiters| && w !in moved { UnmovedKeeps(s, s', t, moved, w); }
    }
    assert ThreadsOk(s') by {
      forall u: nat | u < |s'.threads| ensures ThreadOk(s', u) {
        if u != t {
          assert ThreadOk(s, u);
          forall w | w in Carried(Pc(s, u)) ensures w !in moved { assert w < |s.waiters| && s.waiters[w].place == Held(u); }
        }
      }
    }
    AllWaitersOk(s');
  }

  lemma AllWaitersOk(s: State)
    requires forall w: nat | w < |s.waiters| :: WaiterOk(s, w)
    ensures RegisteredOk(s) && HeldOk(s) && ChannelsOk(s)
  {
    hide ChannelOk, IsRegistered, IsCarried;
    forall w: nat | w < |s.waiters|
      ensures ChannelOk(s, w)
      ensures s.waiters[w].place == InTable ==> IsRegistered(s, w)
      ensures s.waiters[w].place.Held? ==> IsCarried(s, w, s.waiters[w].place.holder)
    {
      assert WaiterOk(s, w);
    }
  }

  lemma UnmovedKeeps(s: State, s': State, t: nat, moved: set<nat>, w: nat)
    requires WaitersOk(s) && OnlyThread(s, s', t, moved) && OnlyWaiters(s, s', t, moved) && OnlyEntries(s, s', moved)
    requires w < |s.waiters| && w !in moved
    ensures WaiterOk(s', w)
  {
    hide Slot, Carried, SlotConn;
    var x := s.waiters[w];
    assert ChannelOk(s, w);
    if x.place == InTable {
      assert IsRegistered(s, w);
      assert SameEntry(s, s', x.conn, x.id);
    }
    if x.place.Held? { assert IsCarried(s, w, x.place.holder); }
  }

  /** Deleting an id forgets whatever waiter it names, and disturbs no other. */
  lemma ForgetKeeps(s: State, c: nat, id: u32)
    requires WaitersOk(s)
    ensures WaitersOk(Forget(s, c, id))
    ensures Forget(s, c, id).threads == s.threads && |Forget(s, c, id).waiters| == |s.waiters|
    ensures |Forget(s, c, id).conns| == |s.conns|
    ensures c < |s.conns| ==> Forget(s, c, id).conns[c].table == Removed(s.conns[c].table, id)
  {
    hide Slot, Carried, SlotConn;
    var s' := Forget(s, c, id);
    if c < |s.conns| && id in s.conns[c].table.pending {
      var w := s.conns[c].table.pending[id];
      assert PointsToIts(s, c, id) && IsRegistered(s, w) && ChannelOk(s, w);
      var t := s.waiters[w].owner;
      assert ThreadOk(s, t);
      UntabledEntries(s, s', c, id);
      hide OnlyEntries, OnlyWaiters, OnlyThread, Removed, TablesOk, RegisteredOk, HeldOk, ChannelsOk, ThreadsOk;
      OneWaiterMoves(s, s', t, w);
      ThreadMoves(s, s', t, {w});
      assert WaiterOk(s', w);
      MovedKeep(s, s', t, {w});
    } else if c < |s.conns| {
      assert s.conns[c].table.pending - {id} == s.conns[c].table.pending;
    }
  }

  /** A registered waiter has one entry only. */
  lemma OneName(s: State, w: nat)
    requires TablesOk(s) && w < |s.waiters|
    ensures forall c: nat, id | c < |s.conns| && id in s.conns[c].table.pending && s.conns[c].table.pending[id] == w ::
      c == s.waiters[w].conn && id == s.waiters[w].id
  {
    forall c: nat, id | c < |s.conns| && id in s.conns[c].table.pending && s.conns[c].table.pending[id] == w
      ensures c == s.waiters[w].conn && id == s.waiters[w].id
    {
      assert PointsToIts(s, c, id);
    }
  }

  /** Taking one entry out leaves all others. */
  lemma UntabledEntries(s: State, s': State, c: nat, id: u32)
    requires TablesOk(s) && c < |s.conns| && id in s.conns[c].table.pending
    requires s'.conns == s.conns[c := s.conns[c].(table := Removed(s.conns[c].table, id))]
    ensures OnlyEntries(s, s', {s.conns[c].table.pending[id]})
  {
    hide TablesOk;
    var w := s.conns[c].table.pending[id];
    assert PointsToIts(s, c, id) by { EntryPoints(s, c, id); }
    OneName(s, w);
    forall d: nat, i | d < |s.conns| && i in s'.conns[d].table.pending
      ensures SameEntry(s, s', d, i) && s.conns[d].table.pending[i] != w
    {
    }
    forall d: nat, i | d < |s.conns| && i in s.conns[d].table.pending
      ensures s.conns[d].table.pending[i] == w || SameEntry(s, s', d, i)
    {
    }
  }

  lemma EntryPoints(s: State, c: nat, id: u32)
    requires TablesOk(s) && c < |s.conns| && id in s.conns[c].table.pending
    ensures PointsToIts(s, c, id)
  {
  }

  /** A caller may turn its back on a waiter that is no longer in a table. */
  lemma LeaveKeeps(s: State, t: nat, pc: PC)
    requires WaitersOk(s) && At(s, t)
    requires Slot(Pc(s, t)).Some? ==> Pc(s, t).w < |s.waiters| && s.waiters[Pc(s, t).w].place != InTable
    requires Carried(Pc(s, t)) == {} && Slot(pc) == None && Carried(pc) == {}
    ensures WaitersOk(Move(s, t, pc))
  {
    MovedKeep(s, Move(s, t, pc), t, {});
  }

  lemma OwnIsForgotten(s: State, t: nat)
    requires WaitersOk(s) && At(s, t) && Slot(Pc(s, t)).Some?
    ensures var s' := DoForget(s, SlotConn(Pc(s, t)), Pc(s, t).w);
      WaitersOk(s') && s'.threads == s.threads
      && Pc(s, t).w < |s'.waiters| && s'.waiters[Pc(s, t).w].place != InTable
  {
    var c, w := SlotConn(Pc(s, t)), Pc(s, t).w;
    assert ThreadOk(s, t);
    var id := s.waiters[w].id;
    ForgetKeeps(s, c, id);
    var s' := Forget(s, c, id);
    assert s'.waiters[w].id == id && s'.waiters[w].conn == c;
    assert s'.waiters[w].place == InTable ==> IsRegistered(s', w);
  }

  lemma RemoveKeeps(p: Params, s: State, t: nat, d: DispatchAction)
    requires WaitersOk(s) && At(s, t) && DispatchEnabled(s, Pc(s, t), d) && (d.RemoveAfterWrite? || d.RemoveOnLeave?)
    ensures WaitersOk(ApplyDispatch(p, s, t, d))
  {
    hide WaitersOk, Forget;
    OwnIsForgotten(s, t);
    var s' := DoForget(s, SlotConn(Pc(s, t)), Pc(s, t).w);
    LeaveKeeps(s', t, DispatchPc(s, s.threads[t], d));
  }

  lemma ReceiveKeeps(s: State, t: nat)
    requires WaitersOk(s) && At(s, t) && DispatchEnabled(s, Pc(s, t), Receive)
    ensures WaitersOk(DoReceive(s, t))
  {
    hide AfterDispatch, Received;
    var w := Pc(s, t).w;
    assert ThreadOk(s, t) && ChannelOk(s, w);
    AfterDispatchIsBare(s.threads[t], Pc(s, t).c, Pc(s, t).m, Received(s.waiters[w].chan.value));
    SentHasNoEntry(s, w);
    hide OnlyEntries, OnlyWaiters, OnlyThread, TablesOk, RegisteredOk, HeldOk, ChannelsOk, ThreadsOk;
    var s' := DoReceive(s, t);
    TablesStay(s, s', {w});
    OneWaiterMoves(s, s', t, w);
    ThreadMoves(s, s', t, {w});
    assert WaiterOk(s', w);
    MovedKeep(s, s', t, {w});
  }

  /** A waiter outside the tables has no entry. */
  lemma SentHasNoEntry(s: State, w: nat)
    requires TablesOk(s) && w < |s.waiters| && s.waiters[w].place != InTable
    ensures forall c: nat, id | c < |s.conns| && id in s.conns[c].table.pending :: s.conns[c].table.pending[id] != w
  {
    forall c: nat, id | c < |s.conns| && id in s.conns[c].table.pending ensures s.conns[c].table.pending[id] != w {
      assert PointsToIts(s, c, id);
    }
  }

  lemma AfterDispatchIsBare(th: Thread, c: nat, m: Mode, r: Outcome)
    ensures Slot(AfterDispatch(th, c, m, r)) == None && Carried(AfterDispatch(th, c, m, r)) == {}
  {
  }

  lemma RegisterKeeps(s: State, t: nat)
    requires WaitersOk(s) && At(s, t) && Pc(s, t).Register?
    ensures WaitersOk(DoRegister(s, t))
  {
    hide WaitersOk, Forget;
    var Register(c, m, id, no) := Pc(s, t);
    if c < |s.conns| && s.conns[c].table.alive {
      ForgetKeeps(s, c, id);
      assert (s.conns[c].table.pending - {id})[id := |s.waiters|] == s.conns[c].table.pending[id := |s.waiters|];
      EnterKeeps(Forget(s, c, id), t, Waiter(c, id, no, t, None, [], InTable), Writing(c, m, |s.waiters|));
    } else {
      AfterDispatchIsBare(s.threads[t], c, m, Err(WriteFailed));
      LeaveKeeps(s, t, AfterDispatch(s.threads[t], c, m, Err(WriteFailed)));
    }
  }

  /** A fresh waiter under an id nobody uses. */
  lemma EnterKeeps(s: State, t: nat, x: Waiter, pc: PC)
    requires WaitersOk(s) && At(s, t) && Slot(Pc(s, t)) == None && Carried(Pc(s, t)) == {}
    requires x.conn < |s.conns| && x.id !in s.conns[x.conn].table.pending
    requires x.owner == t && x.chan == None && x.sends == [] && x.place == InTable
    requires Slot(pc) == Some(|s.waiters|) && SlotConn(pc) == x.conn && Carried(pc) == {}
    ensures var table := s.conns[x.conn].table;
      var s' := WithTable(s, x.conn, table.(pending := table.pending[x.id := |s.waiters|]));
      WaitersOk(Move(s'.(waiters := s'.waiters + [x]), t, pc))
  {
    var n, table := |s.waiters|, s.conns[x.conn].table;
    var s1 := WithTable(s, x.conn, table.(pending := table.pending[x.id := n]));
    var s' := Move(s1.(waiters := s1.waiters + [x]), t, pc);
    assert PointsToIts(s', x.conn, x.id);
    hide OnlyThread, TablesOk, RegisteredOk, HeldOk, ChannelsOk, ThreadsOk;
    ThreadMoves(s, s', t, {});
    assert OnlyEntries(s, s', {});
    hide OnlyEntries;
    assert WaiterOk(s', n);
    MovedKeep(s, s', t, {});
  }

  lemma SendKeeps(s: State, t: nat, w: nat, d: Message, pc: PC)
    requires WaitersOk(s) && At(s, t) && w in Carried(Pc(s, t)) && Slot(Pc(s, t)) == None
    requires Slot(pc) == None && Carried(pc) == Carried(Pc(s, t)) - {w}
    ensures WaitersOk(Move(Send(s, w, d), t, pc))
  {
    assert ThreadOk(s, t) && ChannelOk(s, w);
    SentHasNoEntry(s, w);
    hide OnlyEntries, OnlyWaiters, OnlyThread, TablesOk, RegisteredOk, HeldOk, ChannelsOk, ThreadsOk;
    var s' := Move(Send(s, w, d), t, pc);
    TablesStay(s, s', {w});
    OneWaiterMoves(s, s', t, w);
    ThreadMoves(s, s', t, {w});
    assert WaiterOk(s', w);
    MovedKeep(s, s', t, {w});
  }

  lemma TakeKeeps(s: State, t: nat, c: nat, id: u32, pc: PC)
    requires WaitersOk(s) && At(s, t) && Slot(Pc(s, t)) == None && Carried(Pc(s, t)) == {}
    requires c < |s.conns| && id in s.conns[c].table.pending
    requires Slot(pc) == None && Carried(pc) == {s.conns[c].table.pending[id]}
    ensures var table := s.conns[c].table;
      WaitersOk(Move(WithPlace(WithTable(s, c, Removed(table, id)), table.pending[id], Held(t)), t, pc))
  {
    var w := s.conns[c].table.pending[id];
    assert PointsToIts(s, c, id) && ChannelOk(s, w) && IsRegistered(s, w);
    var s' := Move(WithPlace(WithTable(s, c, Removed(s.conns[c].table, id)), w, Held(t)), t, pc);
    UntabledEntries(s, s', c, id);
    hide OnlyEntries, OnlyWaiters, OnlyThread, Removed, TablesOk, RegisteredOk, HeldOk, ChannelsOk, ThreadsOk;
    OneWaiterMoves(s, s', t, w);
    ThreadMoves(s, s', t, {w});
    assert IsCarried(s', w, t);
    assert WaiterOk(s', w);
    MovedKeep(s, s', t, {w});
  }

  lemma DrainedAreRegistered(s: State, c: nat)
    requires TablesOk(s) && c < |s.conns|
    ensures forall w | w in Drained(s.conns[c].table) ::
      w < |s.waiters| && s.waiters[w].place == InTable && s.waiters[w].conn == c
  {
    forall w | w in Drained(s.conns[c].table)
      ensures w < |s.waiters| && s.waiters[w].place == InTable && s.waiters[w].conn == c
    {
      var id :| id in s.conns[c].table.pending && s.conns[c].table.pending[id] == w;
      assert PointsToIts(s, c, id);
    }
  }

  lemma SwapKeeps(s: State, t: nat)
    requires WaitersOk(s) && At(s, t) && Pc(s, t).Kill?
    ensures WaitersOk(DoPoisonSwap(s, t))
  {
    var Kill(c, e, after) := Pc(s, t);
    if c < |s.conns| {
      SwapShape(s, t);
      DrainedAreRegistered(s, c);
      hide DoPoisonSwap, WaitersOk, HoldAll, Drained, Carried, Slot;
      HoldKeeps(s, DoPoisonSwap(s, t), t, c, Drained(s.conns[c].table));
    } else {
      LeaveKeeps(s, t, Sending(c, e, {}, after));
    }
  }

  lemma SwapShape(s: State, t: nat)
    requires At(s, t) && Pc(s, t).Kill? && Pc(s, t).c < |s.conns|
    ensures var s', c := DoPoisonSwap(s, t), Pc(s, t).c;
      && Slot(Pc(s, t)) == None && Carried(Pc(s, t)) == {}
      && s'.waiters == HoldAll(s.waiters, Drained(s.conns[c].table), t)
      && |s'.conns| == |s.conns| && s'.conns[c].table.pending == map[] && s'.conns == s.conns[c := s'.conns[c]]
      && |s'.threads| == |s.threads| && s'.threads == s.threads[t := s'.threads[t]]
      && Slot(Pc(s', t)) == None && Carried(Pc(s', t)) == Drained(s.conns[c].table)
  {
    hide HoldAll, Drained;
  }

  /** Every waiter of one table passes into the hands of one thread. */
  lemma HoldKeeps(s: State, s': State, t: nat, c: nat, drained: set<nat>)
    requires WaitersOk(s) && At(s, t) && c < |s.conns| && Slot(Pc(s, t)) == None && Carried(Pc(s, t)) == {}
    requires drained == Drained(s.conns[c].table)
    requires forall w | w in drained :: w < |s.waiters| && s.waiters[w].place == InTable && s.waiters[w].conn == c
    requires s'.waiters == HoldAll(s.waiters, drained, t)
    requires |s'.conns| == |s.conns| && s'.conns[c].table.pending == map[] && s'.conns == s.conns[c := s'.conns[c]]
    requires |s'.threads| == |s.threads| && s'.threads == s.threads[t := s'.threads[t]]
    requires Slot(Pc(s', t)) == None && Carried(Pc(s', t)) == drained
    ensures WaitersOk(s')
  {
    hide Drained, HoldAll, Slot, Carried, SlotConn;
    forall w: nat | w < |s'.waiters| && w in drained ensures WaiterOk(s', w) {
      assert ChannelOk(s, w);
      assert IsCarried(s', w, t);
    }
    assert OnlyEntries(s, s', drained) by {
      forall d: nat, id | d < |s.conns| && id in s.conns[d].table.pending
        ensures s.conns[d].table.pending[id] in drained || SameEntry(s, s', d, id)
      {
        if d == c { EntryIsDrained(s, c, id); }
      }
      forall d: nat, id | d < |s.conns| && id in s'.conns[d].table.pending
        ensures SameEntry(s, s', d, id) && s.conns[d].table.pending[id] !in drained
      {
        assert PointsToIts(s, d, id);
      }
    }
    MovedKeep(s, s', t, drained);
  }

  lemma EntryIsDrained(s: State, c: nat, id: u32)
    requires c < |s.conns| && id in s.conns[c].table.pending
    ensures s.conns[c].table.pending[id] in Drained(s.conns[c].table)
  {
  }

  // --- every step ---

  lemma DispatchKeeps(p: Params, s: State, t: nat, d: DispatchAction)
    requires WaitersOk(s) && At(s, t) && DispatchEnabled(s, Pc(s, t), d)
    ensures WaitersOk(ApplyDispatch(p, s, t, d))
  {
    hide WaitersOk, Untouched;
    if !TouchesWaiters(d) {
      DispatchUntouched(p, s, t, d);
      UntouchedKeeps(s, ApplyDispatch(p, s, t, d));
    } else {
      match d {
        case RegisterWaiter => RegisterKeeps(s, t);
        case Receive => ReceiveKeeps(s, t);
        case RemoveAfterWrite => RemoveKeeps(p, s, t, d);
        case RemoveOnLeave => RemoveKeeps(p, s, t, d);
      }
    }
  }

  lemma ReadFrameKeeps(p: Params, s: State, t: nat, body: Octets)
    requires WaitersOk(s) && At(s, t) && Pc(s, t).Reading? && Pc(s, t).c < |s.conns|
    ensures WaitersOk(Act(s, t, Decision(p, s, Pc(s, t).c, body)))
  {
    hide WaitersOk, Codec.DecodeResponseBody;
    var c := Pc(s, t).c;
    var s' := Act(s, t, Decision(p, s, c, body));
    match Decision(p, s, c, body) {
      case Match(w, resp) =>
        TakeKeeps(s, t, c, resp.id, PC.Delivering(c, w, resp));
        var untabled := WithTable(s, c, Removed(s.conns[c].table, resp.id));
        CountersAside(Move(WithPlace(untabled, w, Held(t)), t, PC.Delivering(c, w, resp)), s');
      case Push =>
      case Refuse(e) => LeaveKeeps(s, t, Kill(c, e, AfterReading));
      case Unmatched =>
        LeaveKeeps(s, t, Dropping(c));
        CountersAside(Move(s, t, Dropping(c)), s');
    }
  }

  lemma CountersAside(s: State, s': State)
    requires WaitersOk(s) && s'.conns == s.conns && s'.waiters == s.waiters && s'.threads == s.threads
    ensures WaitersOk(s')
  {
    UntouchedKeeps(s, s');
  }

  lemma DeliveryKeeps(p: Params, s: State, t: nat, v: DeliveryAction)
    requires WaitersOk(s) && At(s, t) && DeliveryEnabled(s, Pc(s, t), v)
    requires Pc(s, t).Reading? ==> Pc(s, t).c < |s.conns|
    ensures WaitersOk(ApplyDelivery(p, s, t, v))
  {
    hide WaitersOk, Untouched;
    match v {
      case PoisonSwap => SwapKeeps(s, t);
      case PoisonSend(w) =>
        var Sending(c, e, drained, after) := Pc(s, t);
        SendKeeps(s, t, w, Failed(e), Sending(c, e, drained - {w}, after));
      case ReadFrame(body) => ReadFrameKeeps(p, s, t, body);
      case DeliverResponse =>
        var Delivering(c, w, resp) := Pc(s, t);
        SendKeeps(s, t, w, Got(resp, c), Reading(c));
      case _ =>
        DeliveryUntouched(p, s, t, v);
        UntouchedKeeps(s, ApplyDelivery(p, s, t, v));
    }
  }

  lemma StartUntouched(s: State, cmd: Command)
    ensures Untouched(s, DoBeginCall(s, cmd)) && Untouched(s, DoBeginClose(s))
  {
  }

  lemma WaitersStep(p: Params, s: State, st: Step)
    requires WaitersOk(s) && Enabled(p, s, st)
    requires st.Delivery? && Pc(s, st.t).Reading? ==> Pc(s, st.t).c < |s.conns|
    ensures WaitersOk(Apply(p, s, st))
  {
    hide WaitersOk, Untouched, ApplyGate, ApplyLive, ApplyDispatch, ApplyDelivery;
    match st {
      case BeginCall(cmd) =>
        StartUntouched(s, cmd);
        UntouchedKeeps(s, Apply(p, s, st));
      case BeginClose =>
        StartUntouched(s, Command([], []));
        UntouchedKeeps(s, Apply(p, s, st));
      case Gate(t, g) =>
        GateUntouched(p, s, t, g);
        UntouchedKeeps(s, Apply(p, s, st));
      case Live(t, l) =>
        LiveUntouched(p, s, t, l);
        UntouchedKeeps(s, Apply(p, s, st));
      case Dispatch(t, d) => DispatchKeeps(p, s, t, d);
      case Delivery(t, v) => DeliveryKeeps(p, s, t, v);
    }
  }
}
