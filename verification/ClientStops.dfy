/**
 Calls that get no further, at a shut gate, in a closed client or with nothing
 left to try, and how Connect fails.
 */
module ClientStops {
  import opened Wrappers
  import opened Values
  import opened ClientTypes
  import opened Client
  import opened ClientHistory
  import opened ClientControl
  import opened ClientRuns
  import Handshake

  /** The history of a thread does not change. */
  predicate SameRecord(a: Thread, b: Thread) {
    && b.kind == a.kind && b.cmd == a.cmd && b.budget == a.budget && b.tried == a.tried && b.writes == a.writes
    && b.establishes == a.establishes && b.own == a.own
  }

  predicate EndsWith(pc: PC, e: Err) { pc == Unlock(Bail(e)) || pc == Release(Err(e)) || pc == Done(Err(e)) }

  // --- a shut gate ---

  predicate AtGate(pc: PC) { pc.AcqWait? || pc.AcqCheck? || pc.AcqReturn? }

  predicate TurnedAway(waited: bool, pc: PC) {
    AtGate(pc) || pc == Done(Err(ConnectionClosed)) || (waited && pc.Done? && pc.out.Err? && IsContextError(pc.out.error))
  }

  lemma GateMoves(p: Params, s: State, st: Step, waited: bool)
    requires Enabled(p, s, st) && !st.BeginCall? && !st.BeginClose? && s.gateClosed
    requires TurnedAway(waited, Pc(s, st.t)) && (Pc(s, st.t).AcqWait? ==> waited)
    ensures TurnedAway(waited, Moved(p, s, st).pc) && !Moved(p, s, st).pc.AcqWait?
    ensures SameRecord(s.threads[st.t], Moved(p, s, st))
  {
  }

  /** Behind a shut gate no call gets through: it ends closed, or, if it was still
      waiting, with the error of its context. */
  lemma {:induction false} ShutGateTurnsAway(p: Params, run: seq<State>, i: nat, j: nat, t: nat)
    requires IsRun(p, run) && i <= j < |run| && run[i].gateClosed && At(run[i], t) && AtGate(Pc(run[i], t))
    ensures At(run[j], t) && SameRecord(run[i].threads[t], run[j].threads[t])
    ensures TurnedAway(Pc(run[i], t).AcqWait?, Pc(run[j], t)) && (Pc(run[j], t).AcqWait? ==> Pc(run[i], t).AcqWait?)
  {
    hide IsRun, Enabled, Apply, Moved, Takes, TurnedAway, Grows;
    if i < j {
      ShutGateTurnsAway(p, run, i, j - 1, t);
      var st := StepOf(p, run, j - 1);
      TookStep(p, run, j - 1, st);
      StepThreads(p, run[j - 1], st, run[j]);
      RunGrows(p, run, i, j - 1);
      FlagsStay(run[i], run[j - 1]);
      if !st.BeginCall? && !st.BeginClose? && st.t == t { GateMoves(p, run[j - 1], st, Pc(run[i], t).AcqWait?); }
    } else {
      StillAtGate(Pc(run[i], t));
    }
  }

  lemma StillAtGate(pc: PC)
    requires AtGate(pc)
    ensures TurnedAway(pc.AcqWait?, pc)
  {
  }

  lemma FlagsStay(s: State, s': State)
    requires Grows(s, s')
    ensures (s.closed ==> s'.closed) && (s.gateClosed ==> s'.gateClosed)
  {
  }

  // --- a closed client ---

  /** Before a test of the closed flag, with no connection in hand. */
  predicate Arriving(pc: PC) {
    AtGate(pc) || pc.LiveTop? || pc.LockWait? || pc.Recheck?
  }

  predicate ShutOut(waited: bool, pc: PC) {
    || Arriving(pc) || EndsWith(pc, ConnectionClosed)
    || (waited && pc.Done? && pc.out.Err? && IsContextError(pc.out.error))
  }

  lemma ShutOutMoves(p: Params, s: State, st: Step, waited: bool)
    requires Enabled(p, s, st) && !st.BeginCall? && !st.BeginClose? && s.closed && s.threads[st.t].kind == Caller
    requires ShutOut(waited, Pc(s, st.t)) && (Pc(s, st.t).AcqWait? ==> waited)
    ensures ShutOut(waited, Moved(p, s, st).pc) && !Moved(p, s, st).pc.AcqWait?
    ensures SameRecord(s.threads[st.t], Moved(p, s, st))
  {
    hide DispatchThread, DeliveryPc, Frames, Alive;
  }

  /** In a closed client a call that has no connection in hand never gets one: it
      dispatches nothing, establishes nothing, and ends closed, or, if it was
      still waiting at the gate, with the error of its context. */
  lemma {:induction false} ClosedStopsCalls(p: Params, run: seq<State>, i: nat, j: nat, t: nat)
    requires IsRun(p, run) && i <= j < |run| && run[i].closed && At(run[i], t)
    requires run[i].threads[t].kind == Caller && Arriving(Pc(run[i], t))
    ensures At(run[j], t) && SameRecord(run[i].threads[t], run[j].threads[t])
    ensures ShutOut(Pc(run[i], t).AcqWait?, Pc(run[j], t)) && (Pc(run[j], t).AcqWait? ==> Pc(run[i], t).AcqWait?)
  {
    hide IsRun, Enabled, Apply, Moved, Takes, ShutOut, Grows;
    if i < j {
      ClosedStopsCalls(p, run, i, j - 1, t);
      var st := StepOf(p, run, j - 1);
      TookStep(p, run, j - 1, st);
      StepThreads(p, run[j - 1], st, run[j]);
      RunGrows(p, run, i, j - 1);
      FlagsStay(run[i], run[j - 1]);
      if !st.BeginCall? && !st.BeginClose? && st.t == t { ShutOutMoves(p, run[j - 1], st, Pc(run[i], t).AcqWait?); }
    } else {
      StillArriving(Pc(run[i], t));
    }
  }

  lemma StillArriving(pc: PC)
    requires Arriving(pc)
    ensures ShutOut(pc.AcqWait?, pc)
  {
  }

  // --- no attempt left ---

  /** The command was not written on the connection, or never will be: it is dead. */
  predicate Unwritten(s: State, pc: PC) {
    match pc
    case Register(c, User, _, _) => c < |s.conns| && !Alive(s, c)
    case Unregister(_, User, _) => true
    case Kill(_, _, AfterWrite(User)) => true
    case Sending(_, _, _, AfterWrite(User)) => true
    case _ => false
  }

  predicate GivesUp(s: State, pc: PC) {
    Unwritten(s, pc) || pc == Release(Err(ConnectionError)) || pc == Done(Err(ConnectionError))
  }

  lemma GivesUpMoves(p: Params, s: State, st: Step)
    requires Enabled(p, s, st) && !st.BeginCall? && !st.BeginClose? && s.threads[st.t].budget == 0
    requires GivesUp(s, Pc(s, st.t))
    ensures GivesUp(s, Moved(p, s, st).pc) && SameRecord(s.threads[st.t], Moved(p, s, st))
  {
  }

  lemma UnwrittenStays(s: State, s': State, pc: PC)
    requires GivesUp(s, pc) && ConnsGrow(s, s')
    ensures GivesUp(s', pc)
  {
    if pc.Register? { assert ConnGrows(s.conns[pc.c], s'.conns[pc.c]); }
  }

  lemma ConnsOnlyGrow(s: State, s': State)
    requires Grows(s, s')
    ensures ConnsGrow(s, s')
  {
  }

  /** A call that has spent both establish attempts and cannot write its command
      dispatches no more: it ends with the connection error. */
  lemma {:induction false} SpentCallGivesUp(p: Params, run: seq<State>, i: nat, j: nat, t: nat)
    requires IsRun(p, run) && i <= j < |run| && At(run[i], t)
    requires run[i].threads[t].budget == 0 && Unwritten(run[i], Pc(run[i], t))
    ensures At(run[j], t) && SameRecord(run[i].threads[t], run[j].threads[t]) && GivesUp(run[j], Pc(run[j], t))
  {
    hide IsRun, Enabled, Apply, Moved, Takes, Unwritten, Grows, ConnsGrow;
    if i < j {
      SpentCallGivesUp(p, run, i, j - 1, t);
      var st := StepOf(p, run, j - 1);
      TookStep(p, run, j - 1, st);
      StepThreads(p, run[j - 1], st, run[j]);
      RunGrows(p, run, j - 1, j);
      ConnsOnlyGrow(run[j - 1], run[j]);
      if !st.BeginCall? && !st.BeginClose? && st.t == t { GivesUpMoves(p, run[j - 1], st); }
      UnwrittenStays(run[j - 1], run[j], Pc(run[j], t));
    }
  }

  // --- an attempt left ---

  /** A call whose command was not written, and which has an attempt left, looks for a connection again. */
  lemma ResendGoesOn(p: Params, s: State, st: Step)
    requires Enabled(p, s, st) && !st.BeginCall? && !st.BeginClose? && s.threads[st.t].budget > 0
    requires Unwritten(s, Pc(s, st.t))
    ensures Unwritten(s, Moved(p, s, st).pc) || Moved(p, s, st).pc == LiveTop
    ensures SameRecord(s.threads[st.t], Moved(p, s, st))
  {
  }

  // --- Connect ---

  /** On the way from a failed establish to its end with e. */
  predicate FailsWith(pc: PC, e: Err) {
    match pc
    case Kill(_, _, AfterGreeting(why)) => why == e
    case Sending(_, _, _, AfterGreeting(why)) => why == e
    case Unlock(Bail(why)) => why == e
    case Done(Err(why)) => why == e
    case _ => false
  }

  lemma FailureMoves(p: Params, s: State, st: Step, e: Err)
    requires Enabled(p, s, st) && !st.BeginCall? && !st.BeginClose? && s.threads[st.t].kind == Connector
    requires FailsWith(Pc(s, st.t), e)
    ensures FailsWith(Moved(p, s, st).pc, e) && SameRecord(s.threads[st.t], Moved(p, s, st))
  {
  }

  /** Connect makes one attempt: once it has failed, it ends with that very error. */
  lemma {:induction false} ConnectIsNotRetried(p: Params, run: seq<State>, i: nat, j: nat, t: nat, e: Err)
    requires IsRun(p, run) && i <= j < |run| && At(run[i], t) && run[i].threads[t].kind == Connector
    requires FailsWith(Pc(run[i], t), e)
    ensures At(run[j], t) && SameRecord(run[i].threads[t], run[j].threads[t]) && FailsWith(Pc(run[j], t), e)
  {
    hide IsRun, Enabled, Apply, Moved, Takes, FailsWith;
    if i < j {
      ConnectIsNotRetried(p, run, i, j - 1, t, e);
      var st := StepOf(p, run, j - 1);
      TookStep(p, run, j - 1, st);
      StepThreads(p, run[j - 1], st, run[j]);
      if !st.BeginCall? && !st.BeginClose? && st.t == t { FailureMoves(p, run[j - 1], st, e); }
    }
  }

  /** What makes Connect fail, and with which error: a failed dial with its own, a
      refused configuration or a server's refusal with the authentication error, and
      an opening frame without an answer with the error of its end. */
  lemma ConnectFailsWith(p: Params, s: State, st: Step)
    requires Enabled(p, s, st) && !st.BeginCall? && !st.BeginClose? && s.threads[st.t].kind == Connector
    ensures st.Live? && st.l.DialFails? ==> FailsWith(Moved(p, s, st).pc, st.l.e)
    ensures st.Live? && st.l.DialSucceeds? && Handshake.IsRefused(p.hs) ==> FailsWith(Moved(p, s, st).pc, AuthError)
    ensures st.Dispatch? && st.d.Receive? && Pc(s, st.t).m.Opening? ==>
      match s.waiters[Pc(s, st.t).w].chan.value
      case Got(ResponseOk(_, v), _) => Moved(p, s, st).pc == Greeting(Pc(s, st.t).c, Pc(s, st.t).m.k + 1, Some(v))
      case Got(ResponseErr(_, _), _) => FailsWith(Moved(p, s, st).pc, AuthError)
      case Failed(e) => e.ServerError? || e == WriteFailed || FailsWith(Moved(p, s, st).pc, e)
    ensures st.Dispatch? && st.d.RemoveOnLeave? && Pc(s, st.t).m.Opening? && IsContextError(Pc(s, st.t).why) ==>
      FailsWith(Moved(p, s, st).pc, Pc(s, st.t).why)
  {
  }

  /** An opening frame that cannot be written fails Connect with a connection error. */
  lemma ConnectCannotWrite(p: Params, s: State, st: Step)
    requires Enabled(p, s, st) && !st.BeginCall? && !st.BeginClose? && s.threads[st.t].kind == Connector
    ensures st.Dispatch? && st.d.RegisterWaiter? && Pc(s, st.t).m.Opening? && !Alive(s, Pc(s, st.t).c) ==>
      FailsWith(Moved(p, s, st).pc, ConnectionError)
    ensures st.Delivery? && st.v.PoisonDone? && Pc(s, st.t).after.AfterWrite? && Pc(s, st.t).after.mode.Opening? ==>
      FailsWith(Moved(p, s, st).pc, ConnectionError)
  {
  }
}
