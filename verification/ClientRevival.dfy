/**
 The exact condition for Close to be final. From every state in which each Close
 has returned, the run can go on to an installed live connection if and only if
 there is one already or some re-dial under way can still succeed.
 */
module ClientRevival {
  import opened Wrappers
  import opened MsgPack
  import opened Values
  import opened ClientTypes
  import opened ConnTable
  import opened Client
  import opened ClientWaiters
  import opened ClientControl
  import opened ClientErrors
  import opened ClientIds
  import opened ClientRoles
  import opened ClientLife
  import opened ClientOpening
  import opened ClientGreeting
  import opened ClientInvariant
  import opened ClientRuns
  import opened ClientBarren
  import Codec
  import CodecRoundTrip
  import Handshake
  import Ids

  /** A run of the client that has reached state s, with the closed flag set. */
  ghost predicate Here(p: Params, run: seq<State>, s: State) {
    |run| > 0 && IsRun(p, run) && run[|run| - 1] == s && s.closed
  }

  ghost predicate Revived(p: Params, run: seq<State>, longer: seq<State>) {
    run <= longer && |longer| > 0 && IsRun(p, longer)
    && longer[|longer| - 1].closed && AliveOption(longer[|longer| - 1], longer[|longer| - 1].current)
  }

  /** Nobody begins a Close. */
  ghost predicate Quietly(s: State, s': State) { ClosersDone(s) ==> ClosersDone(s') }

  ghost predicate Revives(p: Params, run: seq<State>, longer: seq<State>) {
    Revived(p, run, longer) && |run| > 0 && Quietly(run[|run| - 1], longer[|longer| - 1])
  }

  ghost predicate SameAlive(s: State, s': State) {
    |s'.conns| == |s.conns| && forall c: nat :: Alive(s', c) <==> Alive(s, c)
  }

  ghost predicate OthersStay(s: State, s': State, t: nat) {
    |s'.threads| == |s.threads| && forall u: nat | u < |s.threads| && u != t :: s'.threads[u] == s.threads[u]
  }

  predicate Kills(st: Step) { st.Delivery? && st.v.PoisonSwap? }

  /** One more step, of a thread that is there already. */
  lemma Go(p: Params, run: seq<State>, s: State, st: Step) returns (longer: seq<State>, s': State)
    requires Here(p, run, s) && Enabled(p, s, st) && !st.BeginCall? && !st.BeginClose? && !Dials(st)
    ensures run <= longer && Here(p, longer, s') && s' == Apply(p, s, st)
    ensures OthersStay(s, s', st.t) && At(s', st.t) && s'.threads[st.t] == Moved(p, s, st)
    ensures !Kills(st) ==> SameAlive(s, s')
    ensures Quietly(s, s')
  {
    hide Apply, Enabled, Moved, IsRun;
    longer := Extend(p, run, st);
    s' := longer[|longer| - 1];
    StepThreads(p, s, st, s');
    StepFields(p, s, st, s');
    if !Kills(st) { AliveStays(p, s, st, s'); }
    assert Quietly(s, s') by {
      MovedKeeps(p, s, st);
      if Pc(s, st.t).Done? { DoneIsStuck(p, s, st, st.t); }
    }
  }

  lemma AliveStays(p: Params, s: State, st: Step, s': State)
    requires Enabled(p, s, st) && s' == Apply(p, s, st) && !Dials(st) && !Kills(st)
    ensures SameAlive(s, s')
  {
    hide Apply, Frames, Adds;
    StepConns(p, s, st, s');
    forall c: nat ensures Alive(s', c) <==> Alive(s, c) {
      if c < |s.conns| { assert FateIs(p, s, st, s', c); }
    }
  }

  // --- the last steps ---

  lemma FromInstall(p: Params, run: seq<State>, s: State, t: nat) returns (longer: seq<State>)
    requires Here(p, run, s) && At(s, t) && Pc(s, t).Install? && Alive(s, Pc(s, t).c)
    ensures Revives(p, run, longer)
  {
    hide IsRun, Apply, Moved;
    var s';
    longer, s' := Go(p, run, s, Live(t, InstallConn));
    StepFields(p, s, Live(t, InstallConn), s');
  }

  lemma FromSetInfo(p: Params, run: seq<State>, s: State, t: nat) returns (longer: seq<State>)
    requires Here(p, run, s) && At(s, t) && Pc(s, t).SetInfo? && Alive(s, Pc(s, t).c)
    ensures Revives(p, run, longer)
  {
    hide IsRun, Apply;
    var stored, s' := Go(p, run, s, Live(t, StoreInfo));
    longer := FromInstall(p, stored, s', t);
  }

  lemma FromGreeted(p: Params, run: seq<State>, s: State, t: nat) returns (longer: seq<State>)
    requires Here(p, run, s) && At(s, t) && Pc(s, t).Greeting? && Pc(s, t).k >= |Frames(p)| && Alive(s, Pc(s, t).c)
    ensures Revives(p, run, longer)
  {
    hide IsRun, Apply, Frames, Handshake.Learned;
    var greeted, s' := Go(p, run, s, Live(t, GreetNext));
    longer := FromSetInfo(p, greeted, s', t);
  }

  // --- one opening frame after the other ---

  lemma ReaderIsOther(s: State, t: nat, r: nat, c: nat)
    requires Reads(s, r, c) && At(s, t) && !Pc(s, t).Reading? && !Pc(s, t).Delivering? && !Pc(s, t).Dropping?
    ensures r != t
  {
  }

  /** The rest of the opening, with a reader to bring the answers. */
  lemma FromGreeting(p: Params, run: seq<State>, s: State, t: nat, r: nat) returns (longer: seq<State>)
    requires Here(p, run, s) && At(s, t) && Pc(s, t).Greeting? && Alive(s, Pc(s, t).c) && Reads(s, r, Pc(s, t).c)
    ensures Revives(p, run, longer)
    decreases |Frames(p)| - Pc(s, t).k, 6
  {
    hide IsRun, Apply, Frames, Handshake.Learned;
    if Pc(s, t).k >= |Frames(p)| {
      longer := FromGreeted(p, run, s, t);
    } else {
      ReaderIsOther(s, t, r, Pc(s, t).c);
      var next, s' := Go(p, run, s, Live(t, GreetNext));
      longer := FromAlloc(p, next, s', t, r);
    }
  }

  lemma FromAlloc(p: Params, run: seq<State>, s: State, t: nat, r: nat) returns (longer: seq<State>)
    requires Here(p, run, s) && At(s, t) && Pc(s, t).Alloc? && Pc(s, t).m.Opening? && Pc(s, t).m.k < |Frames(p)|
    requires Alive(s, Pc(s, t).c) && Reads(s, r, Pc(s, t).c)
    ensures Revives(p, run, longer)
    decreases |Frames(p)| - Pc(s, t).m.k, 5
  {
    hide IsRun, Apply, Frames;
    ReaderIsOther(s, t, r, Pc(s, t).c);
    var next, s' := Go(p, run, s, Dispatch(t, AllocId));
    longer := FromRegister(p, next, s', t, r);
  }

  lemma FromRegister(p: Params, run: seq<State>, s: State, t: nat, r: nat) returns (longer: seq<State>)
    requires Here(p, run, s) && At(s, t) && Pc(s, t).Register? && Pc(s, t).m.Opening? && Pc(s, t).m.k < |Frames(p)|
    requires Alive(s, Pc(s, t).c) && Reads(s, r, Pc(s, t).c)
    ensures Revives(p, run, longer)
    decreases |Frames(p)| - Pc(s, t).m.k, 4
  {
    hide IsRun, Apply, Frames;
    ReaderIsOther(s, t, r, Pc(s, t).c);
    var st := Dispatch(t, RegisterWaiter);
    var next, s' := Go(p, run, s, st);
    RegisteredFresh(p, s, st, s');
    RegisteredInTable(p, s, st, s');
    assert Reads(s', r, Pc(s', t).c);
    longer := FromWriting(p, next, s', t);
  }

  lemma RegisteredInTable(p: Params, s: State, st: Step, s': State)
    requires Enabled(p, s, st) && s' == Apply(p, s, st) && st.Dispatch? && st.d.RegisterWaiter? && Alive(s, Pc(s, st.t).c)
    ensures |s.waiters| < |s'.waiters| && s'.waiters[|s.waiters|].place == InTable
  {
    hide ApplyDispatch;
    DispatchWaiters(p, s, st.t, st.d);
  }

  lemma FromWriting(p: Params, run: seq<State>, s: State, t: nat) returns (longer: seq<State>)
    requires Here(p, run, s) && At(s, t) && Pc(s, t).Writing? && Pc(s, t).m.Opening? && Pc(s, t).m.k < |Frames(p)|
    requires Alive(s, Pc(s, t).c) && Promising(p, s, Pc(s, t).c, Pc(s, t).m.k, Pc(s, t).w)
    ensures Revives(p, run, longer)
    decreases |Frames(p)| - Pc(s, t).m.k, 3
  {
    hide IsRun, Apply, Frames, Promising;
    var st := Dispatch(t, WriteSucceeds);
    var next, s' := Go(p, run, s, st);
    PromiseStays(p, s, st, s', Pc(s, t).c, Pc(s, t).m.k, Pc(s, t).w);
    longer := FromAwaiting(p, next, s', t);
  }

  /** Writing the frame changes nothing about its answer. */
  lemma PromiseStays(p: Params, s: State, st: Step, s': State, c: nat, k: nat, w: nat)
    requires Enabled(p, s, st) && s' == Apply(p, s, st) && st.Dispatch? && st.d.WriteSucceeds?
    requires OthersStay(s, s', st.t) && Promising(p, s, c, k, w)
    ensures Promising(p, s', c, k, w)
  {
    hide Frames, RequestOf, DispatchThread;
    if HasReader(s, c) {
      var r: nat :| Reads(s, r, c);
      assert Reads(s', r, c);
    }
    if IsBrought(s, c, w) {
      var r: nat :| Brings(s, r, c, w);
      assert Brings(s', r, c, w);
    }
  }

  lemma FromAwaiting(p: Params, run: seq<State>, s: State, t: nat) returns (longer: seq<State>)
    requires Here(p, run, s) && At(s, t) && Pc(s, t).Awaiting? && Pc(s, t).m.Opening? && Pc(s, t).m.k < |Frames(p)|
    requires Alive(s, Pc(s, t).c) && Promising(p, s, Pc(s, t).c, Pc(s, t).m.k, Pc(s, t).w)
    ensures Revives(p, run, longer)
    decreases |Frames(p)| - Pc(s, t).m.k, 2
  {
    hide IsRun, Apply, Frames, Enabled;
    var c, w := Pc(s, t).c, Pc(s, t).w;
    if s.waiters[w].chan.Some? {
      longer := FromAnswered(p, run, s, t);
    } else if IsBrought(s, c, w) {
      var r: nat :| Brings(s, r, c, w);
      longer := FromBrought(p, run, s, t, r);
    } else {
      var r: nat :| Reads(s, r, c);
      var ready, s1 := ReaderReady(p, run, s, t, r);
      var brought, s2 := ServerAnswers(p, ready, s1, t, r);
      longer := FromBrought(p, brought, s2, t, r);
    }
  }

  /** A success in the channel: the opener goes on to the next frame. */
  lemma FromAnswered(p: Params, run: seq<State>, s: State, t: nat) returns (longer: seq<State>)
    requires Here(p, run, s) && At(s, t) && Pc(s, t).Awaiting? && Pc(s, t).m.Opening? && Pc(s, t).m.k < |Frames(p)|
    requires Alive(s, Pc(s, t).c) && Pc(s, t).w < |s.waiters| && s.waiters[Pc(s, t).w].chan.Some?
    requires IsSuccess(s.waiters[Pc(s, t).w].chan.value)
    requires Pc(s, t).m.k + 1 >= |Frames(p)| || HasReader(s, Pc(s, t).c)
    ensures Revives(p, run, longer)
    decreases |Frames(p)| - Pc(s, t).m.k, 0
  {
    hide IsRun, Apply, Frames;
    var next, s' := Go(p, run, s, Dispatch(t, Receive));
    if Pc(s, t).m.k + 1 >= |Frames(p)| {
      longer := FromGreeted(p, next, s', t);
    } else {
      var r: nat :| Reads(s, r, Pc(s, t).c);
      ReaderIsOther(s, t, r, Pc(s, t).c);
      assert Reads(s', r, Pc(s, t).c);
      longer := FromGreeting(p, next, s', t, r);
    }
  }

  /** The reader brings the success. */
  lemma FromBrought(p: Params, run: seq<State>, s: State, t: nat, r: nat) returns (longer: seq<State>)
    requires Here(p, run, s) && At(s, t) && Pc(s, t).Awaiting? && Pc(s, t).m.Opening? && Pc(s, t).m.k < |Frames(p)|
    requires Alive(s, Pc(s, t).c) && Pc(s, t).w < |s.waiters| && s.waiters[Pc(s, t).w].chan == None
    requires Brings(s, r, Pc(s, t).c, Pc(s, t).w)
    ensures Revives(p, run, longer)
    decreases |Frames(p)| - Pc(s, t).m.k, 1
  {
    hide IsRun, ApplyGate, ApplyLive, ApplyDispatch, Frames;
    var next, s' := Go(p, run, s, Delivery(r, DeliverResponse));
    assert Reads(s', r, Pc(s, t).c);
    longer := FromAnswered(p, next, s', t);
  }

  /** The waiter of an opening frame, seen by the opener. */
  ghost predicate StillWaits(s: State, s': State, t: nat, w: nat) {
    At(s, t) && At(s', t) && s'.threads[t] == s.threads[t]
    && w < |s.waiters| && w < |s'.waiters| && s'.waiters[w].(place := s.waiters[w].place) == s.waiters[w]
  }

  /** Whatever the reader is doing, it comes back to reading. */
  lemma ReaderReady(p: Params, run: seq<State>, s: State, t: nat, r: nat) returns (longer: seq<State>, s': State)
    requires Here(p, run, s) && At(s, t) && Pc(s, t).Awaiting? && Reads(s, r, Pc(s, t).c)
    requires Pc(s, t).w < |s.waiters| && s.waiters[Pc(s, t).w].place == InTable && s.waiters[Pc(s, t).w].chan == None
    ensures run <= longer && Here(p, longer, s') && SameAlive(s, s') && StillWaits(s, s', t, Pc(s, t).w) && Quietly(s, s')
    ensures s'.waiters[Pc(s, t).w].place == InTable && At(s', r) && Pc(s', r) == Reading(Pc(s, t).c)
  {
    hide IsRun, ApplyGate, ApplyLive, ApplyDispatch;
    ReaderIsOther(s, t, r, Pc(s, t).c);
    if Pc(s, r).Reading? {
      longer, s' := run, s;
    } else if Pc(s, r).Dropping? {
      longer, s' := Go(p, run, s, Delivery(r, CountDrop));
    } else {
      CarriedIsFree(p, run, s, r);
      longer, s' := Go(p, run, s, Delivery(r, DeliverResponse));
    }
  }

  lemma CarriedIsFree(p: Params, run: seq<State>, s: State, r: nat)
    requires Here(p, run, s) && At(s, r) && Pc(s, r).Delivering?
    ensures CanSend(s, Pc(s, r).w) && s.waiters[Pc(s, r).w].place == Held(r)
  {
    hide IsRun;
    assert WaitersOk(s) by { RunKeepsInvariant(p, run, |run| - 1); }
    assert ThreadOk(s, r) && Pc(s, r).w in Carried(Pc(s, r)) && ChannelOk(s, Pc(s, r).w);
  }

  /** The server answers the frame with success, and the reader takes the waiter. */
  lemma ServerAnswers(p: Params, run: seq<State>, s: State, t: nat, r: nat) returns (longer: seq<State>, s': State)
    requires Here(p, run, s) && At(s, t) && Pc(s, t).Awaiting? && Alive(s, Pc(s, t).c)
    requires Pc(s, t).w < |s.waiters| && s.waiters[Pc(s, t).w].place == InTable && s.waiters[Pc(s, t).w].chan == None
    requires At(s, r) && Pc(s, r) == Reading(Pc(s, t).c)
    ensures run <= longer && Here(p, longer, s') && SameAlive(s, s') && StillWaits(s, s', t, Pc(s, t).w) && Quietly(s, s')
    ensures Brings(s', r, Pc(s, t).c, Pc(s, t).w)
  {
    hide IsRun, Apply, OnBody;
    var c, w := Pc(s, t).c, Pc(s, t).w;
    var body := Codec.EncodeResponse(ResponseOk(s.waiters[w].id, Null));
    AnswerMatches(p, run, s, t);
    var st := Delivery(r, ReadFrame(body));
    longer, s' := Go(p, run, s, st);
    DeliveryReadsOn(p, s, st, s', w);
  }

  lemma DeliveryReadsOn(p: Params, s: State, st: Step, s': State, w: nat)
    requires Enabled(p, s, st) && s' == Apply(p, s, st) && st.Delivery? && st.v.ReadFrame? && w < |s.waiters|
    ensures w < |s'.waiters| && s'.waiters[w].(place := s.waiters[w].place) == s.waiters[w]
  {
    hide OnBody, Act, DeliveryPc;
    ActKeepsWaiter(s, st.t, Decision(p, s, Pc(s, st.t).c, st.v.body), w);
  }

  lemma ActKeepsWaiter(s: State, t: nat, a: Action, w: nat)
    requires At(s, t) && Pc(s, t).Reading? && w < |s.waiters|
    ensures var s' := Act(s, t, a); w < |s'.waiters| && s'.waiters[w].(place := s.waiters[w].place) == s.waiters[w]
  {
    hide AfterBody, Removed;
  }

  /** A response with the id of a registered waiter is matched to it. */
  lemma AnswerMatches(p: Params, run: seq<State>, s: State, t: nat)
    requires Here(p, run, s) && At(s, t) && Pc(s, t).Awaiting? && Alive(s, Pc(s, t).c)
    requires Pc(s, t).w < |s.waiters| && s.waiters[Pc(s, t).w].place == InTable
    ensures var c, w := Pc(s, t).c, Pc(s, t).w;
      var resp := ResponseOk(s.waiters[w].id, Null);
      |Codec.EncodeResponse(resp)| < 0x1_0000_0000 && Decision(p, s, c, Codec.EncodeResponse(resp)) == Match(w, resp)
  {
    hide IsRun, Codec.DecodeResponseBody, Codec.EncodeResponse, Ids.IdOf;
    var c, w := Pc(s, t).c, Pc(s, t).w;
    var resp := ResponseOk(s.waiters[w].id, Null);
    assert WaitersOk(s) && IdsOk(s) by { RunKeepsInvariant(p, run, |run| - 1); }
    assert ThreadOk(s, t) && IsRegistered(s, w) && WaiterNumbered(s, s.waiters[w]);
    ShortAnswer(p, s.waiters[w].id);
  }

  lemma ShortAnswer(p: Params, id: u32)
    ensures |Codec.EncodeResponse(ResponseOk(id, Null))| < 0x1_0000_0000
    ensures Codec.DecodeResponseBody(p.floats, Codec.EncodeResponse(ResponseOk(id, Null))) == Some(ResponseOk(id, Null))
  {
    var body := Codec.EncodeResponse(ResponseOk(id, Null));
    assert |body| < 0x1_0000_0000 by { hide BE; }
    hide Codec.EncodeResponse, Codec.ParseResponse;
    CodecRoundTrip.ParseEncodedResponse(p.floats, ResponseOk(id, Null), []);
    assert body + [] == body;
  }

  // --- a new dial ---

  /** The dial succeeds: a fresh connection with its reader, and the opening begins. */
  lemma FromDialing(p: Params, run: seq<State>, s: State, t: nat) returns (longer: seq<State>)
    requires Here(p, run, s) && At(s, t) && Pc(s, t).Dialing?
    ensures Revives(p, run, longer)
  {
    hide IsRun, Apply, Handshake.Opening, Frames, ApplyLive;
    var st := Live(t, DialSucceeds);
    var dialed := Extend(p, run, st);
    var s' := dialed[|dialed| - 1];
    StepThreads(p, s, st, s');
    StepFields(p, s, st, s');
    StepConns(p, s, st, s');
    OpeningIsAccepted(p, run, s);
    assert Reads(s', |s.threads|, |s.conns|);
    longer := FromGreeting(p, dialed, s', t, |s.threads|);
  }

  /** Close can be called only on a client whose configuration was accepted. */
  lemma OpeningIsAccepted(p: Params, run: seq<State>, s: State)
    requires Here(p, run, s)
    ensures Handshake.Opening(p.hs).Ok?
  {
    hide IsRun, Handshake.Opening;
    assert RolesOk(s) && GreetingsOk(p, s) by { hide RolesOk, GreetingsOk; RunKeepsInvariant(p, run, |run| - 1); }
  }

  lemma FromRedial(p: Params, run: seq<State>, s: State, t: nat) returns (longer: seq<State>)
    requires Here(p, run, s) && At(s, t) && Pc(s, t).Redial? && s.threads[t].budget > 0
    ensures Revives(p, run, longer)
  {
    hide IsRun, Apply;
    var next, s' := Go(p, run, s, Live(t, SpendBudget));
    longer := FromDialing(p, next, s', t);
  }

  // --- a failed attempt is followed by another ---

  /** A kill can always be carried through; then a caller with budget dials again. */
  lemma FromSending(p: Params, run: seq<State>, s: State, t: nat) returns (longer: seq<State>)
    requires Here(p, run, s) && At(s, t) && Pc(s, t).Sending? && Resumes(Pc(s, t).after)
    requires s.threads[t].budget > 0 && s.threads[t].kind == Caller
    ensures Revives(p, run, longer)
    decreases if Pc(s, t).after.AfterWrite? then 1 else 0, 0, |Pc(s, t).drained|
  {
    hide IsRun, Apply;
    if Pc(s, t).drained != {} {
      var w :| w in Pc(s, t).drained;
      DrainedIsFree(p, run, s, t, w);
      var next, s' := Go(p, run, s, Delivery(t, PoisonSend(w)));
      longer := FromSending(p, next, s', t);
    } else {
      var next, s' := Go(p, run, s, Delivery(t, PoisonDone));
      if Pc(s, t).after.AfterWrite? { longer := FromKill(p, next, s', t); } else { longer := FromRedial(p, next, s', t); }
    }
  }

  lemma DrainedIsFree(p: Params, run: seq<State>, s: State, t: nat, w: nat)
    requires Here(p, run, s) && At(s, t) && Pc(s, t).Sending? && w in Pc(s, t).drained
    ensures CanSend(s, w)
  {
    hide IsRun;
    assert WaitersOk(s) by { RunKeepsInvariant(p, run, |run| - 1); }
    assert ThreadOk(s, t) && w in Carried(Pc(s, t)) && ChannelOk(s, w);
  }

  lemma FromKill(p: Params, run: seq<State>, s: State, t: nat) returns (longer: seq<State>)
    requires Here(p, run, s) && At(s, t) && Pc(s, t).Kill? && Resumes(Pc(s, t).after)
    requires s.threads[t].budget > 0 && s.threads[t].kind == Caller
    ensures Revives(p, run, longer)
    decreases if Pc(s, t).after.AfterWrite? then 1 else 0, 1
  {
    hide IsRun, Apply, Drained;
    var next, s' := Go(p, run, s, Delivery(t, PoisonSwap));
    longer := FromSending(p, next, s', t);
  }

  /** The places of a dispatch of the opening from which a failure leads to a kill. */
  lemma FromFailing(p: Params, run: seq<State>, s: State, t: nat) returns (longer: seq<State>)
    requires Here(p, run, s) && At(s, t) && s.threads[t].budget > 0 && s.threads[t].kind == Caller
    requires match Pc(s, t)
      case Unregister(_, Opening(_), _) => true
      case Leaving(_, Opening(_), _, why) => AsHandshakeError(why) != AuthError
      case _ => false
    ensures Revives(p, run, longer)
  {
    hide IsRun, Apply;
    if Pc(s, t).Unregister? {
      var next, s' := Go(p, run, s, Dispatch(t, RemoveAfterWrite));
      longer := FromKill(p, next, s', t);
    } else {
      var next, s' := Go(p, run, s, Dispatch(t, RemoveOnLeave));
      longer := FromKill(p, next, s', t);
    }
  }

  predicate Spare(s: State, t: nat) { At(s, t) && s.threads[t].kind == Caller && s.threads[t].budget > 0 }

  lemma FailAwaiting(p: Params, run: seq<State>, s: State, t: nat) returns (longer: seq<State>)
    requires Here(p, run, s) && Spare(s, t) && Pc(s, t).Awaiting? && Pc(s, t).m.Opening?
    ensures Revives(p, run, longer)
  {
    hide IsRun, Apply;
    var next, s' := Go(p, run, s, Dispatch(t, ContextEnds(TimeoutError)));
    longer := FromFailing(p, next, s', t);
  }

  lemma FailWriting(p: Params, run: seq<State>, s: State, t: nat) returns (longer: seq<State>)
    requires Here(p, run, s) && Spare(s, t) && Pc(s, t).Writing? && Pc(s, t).m.Opening?
    ensures Revives(p, run, longer)
  {
    hide IsRun, Apply;
    var next, s' := Go(p, run, s, Dispatch(t, WriteFails));
    longer := FromFailing(p, next, s', t);
  }

  lemma FailRegister(p: Params, run: seq<State>, s: State, t: nat) returns (longer: seq<State>)
    requires Here(p, run, s) && Spare(s, t) && Pc(s, t).Register? && Pc(s, t).m.Opening?
    ensures Revives(p, run, longer)
  {
    hide IsRun, Apply, Alive;
    var next, s' := Go(p, run, s, Dispatch(t, RegisterWaiter));
    if Pc(s', t).Writing? { longer := FailWriting(p, next, s', t); } else { longer := FromKill(p, next, s', t); }
  }

  lemma FailAlloc(p: Params, run: seq<State>, s: State, t: nat) returns (longer: seq<State>)
    requires Here(p, run, s) && Spare(s, t) && Pc(s, t).Alloc? && Pc(s, t).m.Opening?
    ensures Revives(p, run, longer)
  {
    hide IsRun, Apply;
    var next, s' := Go(p, run, s, Dispatch(t, AllocId));
    longer := FailRegister(p, next, s', t);
  }

  lemma FailGreeting(p: Params, run: seq<State>, s: State, t: nat) returns (longer: seq<State>)
    requires Here(p, run, s) && Spare(s, t) && Pc(s, t).Greeting? && Pc(s, t).k < |Frames(p)|
    ensures Revives(p, run, longer)
  {
    hide IsRun, Apply, Frames;
    var next, s' := Go(p, run, s, Live(t, GreetNext));
    longer := FailAlloc(p, next, s', t);
  }

  // --- the second look ---

  lemma FromReCheck(p: Params, run: seq<State>, s: State, t: nat) returns (longer: seq<State>)
    requires Here(p, run, s) && Spare(s, t) && Pc(s, t).ReCheckAlive? && !AliveOption(s, Pc(s, t).seen)
    ensures Revives(p, run, longer)
  {
    hide IsRun, Apply;
    var next, s' := Go(p, run, s, Live(t, DecideAliveAgain));
    longer := FromRedial(p, next, s', t);
  }

  lemma FromReRead(p: Params, run: seq<State>, s: State, t: nat) returns (longer: seq<State>)
    requires Here(p, run, s) && Spare(s, t) && Pc(s, t).ReRead? && !AliveOption(s, s.current)
    ensures Revives(p, run, longer)
  {
    hide IsRun, Apply;
    var next, s' := Go(p, run, s, Live(t, LoadConnAgain));
    longer := FromReCheck(p, next, s', t);
  }

  /** With every Close returned, what the second look saw alive is still current. */
  lemma SeenIsCurrent(p: Params, run: seq<State>, s: State, t: nat)
    requires Here(p, run, s) && ClosersDone(s) && At(s, t) && Pc(s, t).ReCheckAlive? && AliveOption(s, Pc(s, t).seen)
    ensures AliveOption(s, s.current)
  {
    hide IsRun, HoldsLock;
    assert SoleOk(s) && RolesOk(s) by { hide SoleOk, RolesOk; RunKeepsInvariant(p, run, |run| - 1); }
    var c := Pc(s, t).seen.value;
    assert Kept(s, c) && DeadOk(s, t);
    NobodyShutsNow(s, c);
    LockIsHeld(s, t);
  }

  lemma NobodyShutsNow(s: State, c: nat)
    requires RolesOk(s) && ClosersDone(s)
    ensures forall t: nat :: !Shutting(s, t, c)
  {
    forall t: nat ensures !Shutting(s, t, c) {
      if At(s, t) { assert RoleOk(s, t); }
    }
  }

  lemma LockIsHeld(s: State, t: nat)
    requires RolesOk(s) && At(s, t) && HoldsLock(Pc(s, t))
    ensures s.redialer == Some(t)
  {
    assert RoleOk(s, t);
  }

  // --- both directions ---

  lemma FertileRevives(p: Params, run: seq<State>, s: State, t: nat) returns (longer: seq<State>)
    requires Here(p, run, s) && ClosersDone(s) && CanStillInstall(p, s, t) && !AliveOption(s, s.current)
    ensures Revives(p, run, longer)
  {
    hide IsRun, Promising, HasReader, Frames, Alive, AsHandshakeError, ClosersDone;
    var spare := s.threads[t].budget > 0;
    match Pc(s, t) {
      case ReRead => longer := FromReRead(p, run, s, t);
      case ReCheckAlive(seen) =>
        if AliveOption(s, seen) { SeenIsCurrent(p, run, s, t); }
        longer := FromReCheck(p, run, s, t);
      case Redial(_) => longer := FromRedial(p, run, s, t);
      case Dialing => longer := FromDialing(p, run, s, t);
      case SetInfo(_, _) => longer := FromSetInfo(p, run, s, t);
      case Install(_) => longer := FromInstall(p, run, s, t);
      case Kill(_, _, _) => longer := FromKill(p, run, s, t);
      case Sending(_, _, _, _) => longer := FromSending(p, run, s, t);
      case Unregister(_, _, _) => longer := FromFailing(p, run, s, t);
      case Leaving(_, _, _, _) => longer := FromFailing(p, run, s, t);
      case _ => longer := OpeningRevives(p, run, s, t);
    }
  }

  lemma OpeningRevives(p: Params, run: seq<State>, s: State, t: nat) returns (longer: seq<State>)
    requires Here(p, run, s) && CanStillInstall(p, s, t)
    requires Pc(s, t).Greeting? || Pc(s, t).Alloc? || Pc(s, t).Register? || Pc(s, t).Writing? || Pc(s, t).Awaiting?
    ensures Revives(p, run, longer)
  {
    hide IsRun, Promising, Frames, Alive;
    if s.threads[t].budget > 0 && (Pc(s, t).Greeting? ==> Pc(s, t).k < |Frames(p)|) {
      match Pc(s, t) {
        case Greeting(_, _, _) => longer := FailGreeting(p, run, s, t);
        case Alloc(_, _) => longer := FailAlloc(p, run, s, t);
        case Register(_, _, _, _) => longer := FailRegister(p, run, s, t);
        case Writing(_, _, _) => longer := FailWriting(p, run, s, t);
        case Awaiting(_, _, _) => longer := FailAwaiting(p, run, s, t);
      }
    } else {
      OpeningInRange(p, run, s, t);
      match Pc(s, t) {
        case Greeting(c, k, _) =>
          if k >= |Frames(p)| {
            longer := FromGreeted(p, run, s, t);
          } else {
            var r: nat :| Reads(s, r, c);
            longer := FromGreeting(p, run, s, t, r);
          }
        case Alloc(c, _) =>
          var r: nat :| Reads(s, r, c);
          longer := FromAlloc(p, run, s, t, r);
        case Register(c, _, _, _) =>
          var r: nat :| Reads(s, r, c);
          longer := FromRegister(p, run, s, t, r);
        case Writing(_, _, _) => longer := FromWriting(p, run, s, t);
        case Awaiting(_, _, _) => longer := FromAwaiting(p, run, s, t);
      }
    }
  }

  /** A thread in the opening works on a frame of it. */
  lemma OpeningInRange(p: Params, run: seq<State>, s: State, t: nat)
    requires Here(p, run, s) && At(s, t)
    ensures (Pc(s, t).Alloc? || Pc(s, t).Register? || Pc(s, t).Writing? || Pc(s, t).Awaiting?) && Pc(s, t).m.Opening?
      ==> Pc(s, t).m.k < |Frames(p)|
  {
    hide IsRun, Frames;
    assert ProgressOk(p, s, Pc(s, t)) by {
      assert OpeningsOk(p, s) by { hide OpeningsOk; RunKeepsInvariant(p, run, |run| - 1); }
    }
  }

  lemma {:induction false} BarrenLasts(p: Params, run: seq<State>, i: nat, j: nat)
    requires IsRun(p, run) && i <= j < |run| && Barren(p, run[i])
    ensures Barren(p, run[j])
  {
    hide Apply, Enabled, IsRun, Barren, WaitersOk, ErrorsOk, RolesOk;
    if i < j {
      BarrenLasts(p, run, i, j - 1);
      assert WaitersOk(run[j - 1]) && ErrorsOk(run[j - 1]) && RolesOk(run[j - 1]) by { RunKeepsInvariant(p, run, j - 1); }
      assert WaitersOk(run[j]) by { RunKeepsInvariant(p, run, j); }
      var st := StepOf(p, run, j - 1);
      BarrenStep(p, run[j - 1], st, run[j]);
    }
  }

  /** Close is final exactly when no connection is installed and alive and no
      re-dial can still succeed: otherwise the client can be alive again. */
  lemma CloseIsFinalIff(p: Params, run: seq<State>, s: State)
    requires Here(p, run, s) && ClosersDone(s)
    ensures (exists longer :: Revived(p, run, longer)) <==> AliveOption(s, s.current) || exists t: nat :: CanStillInstall(p, s, t)
  {
    hide IsRun, ClosersDone, CanStillInstall, Alive;
    if AliveOption(s, s.current) {
      assert Revived(p, run, run);
    } else if exists t: nat :: CanStillInstall(p, s, t) {
      var t: nat :| CanStillInstall(p, s, t);
      var longer := FertileRevives(p, run, s, t);
    } else {
      forall longer ensures !Revived(p, run, longer) {
        if run <= longer && IsRun(p, longer) && |longer| > 0 {
          assert longer[|run| - 1] == s;
          BarrenLasts(p, longer, |run| - 1, |longer| - 1);
        }
      }
    }
  }
}
