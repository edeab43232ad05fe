/**
 Which errors of its own a call can end with, each with its cause in the run:
 Close had been called, the server refused the handshake, the call was cut short,
 its request was never written, or a connection it used broke.
 */
module ClientBlame {
  import opened Wrappers
  import opened Values
  import opened ClientTypes
  import opened Client
  import opened ClientWaiters
  import opened ClientHistory
  import opened ClientControl
  import opened ClientErrors
  import opened ClientRoles
  import opened ClientLife
  import opened ClientRetry
  import opened ClientGreeting
  import opened ClientInvariant
  import opened ClientRuns
  import opened ClientOrigins
  import opened ClientCauses
  import Handshake

  /** Connection c died of e. */
  predicate DiedOf(s: State, c: nat, e: Err) { c < |s.conns| && s.conns[c].error == Some(e) }

  predicate TriedLast(s: State, t: nat, c: nat) {
    At(s, t) && s.threads[t].tried != [] && s.threads[t].tried[|s.threads[t].tried| - 1] == c
  }

  predicate OpenedBy(s: State, t: nat, c: nat) { c < |s.conns| && s.conns[c].opener == t }

  /** Thread t wrote its command on c, and c died of e. */
  predicate LostAnswer(s: State, t: nat, c: nat, e: Err) {
    DiedOf(s, c, e) && TriedLast(s, t, c) && s.threads[t].writes == 1
  }

  /** The connection thread t opened or dispatched on last is dead, and its command was not written. */
  predicate Unsent(s: State, t: nat, c: nat) {
    Dead(s, c) && At(s, t) && (TriedLast(s, t, c) || OpenedBy(s, t, c)) && s.threads[t].writes == 0
  }

  /** At step i the context of t ends with e, at the gate or while it awaits its answer. */
  ghost predicate CancelledAt(p: Params, run: seq<State>, i: nat, t: nat, e: Err) {
    || Takes(p, run, i, Gate(t, AcqCancel(e)))
    || (Takes(p, run, i, Dispatch(t, ContextEnds(e))) && Pc(run[i], t).Awaiting? && Pc(run[i], t).m.User?)
  }

  ghost predicate Cancelled(p: Params, run: seq<State>, n: nat, t: nat, e: Err) {
    exists i: nat :: i < n && CancelledAt(p, run, i, t, e)
  }

  /** At step i an establish attempt of t fails with e: no connection, or no answer to an opening frame in time. */
  ghost predicate AttemptFailsAt(p: Params, run: seq<State>, i: nat, t: nat, e: Err) {
    || Takes(p, run, i, Live(t, DialFails(e)))
    || (Takes(p, run, i, Dispatch(t, ContextEnds(e))) && Pc(run[i], t).Awaiting? && Pc(run[i], t).m.Opening?)
  }

  ghost predicate AttemptFailed(p: Params, run: seq<State>, n: nat, t: nat, e: Err) {
    exists i: nat :: i < n && AttemptFailsAt(p, run, i, t, e)
  }

  /** At step i thread t receives the server's refusal of an opening frame, read on that connection. */
  ghost predicate RefusedAt(p: Params, run: seq<State>, i: nat, t: nat, resp: Response) {
    && Takes(p, run, i, Dispatch(t, Receive)) && Pc(run[i], t).Awaiting? && Pc(run[i], t).m.Opening?
    && var Awaiting(c, m, w) := Pc(run[i], t);
       w < |run[i].waiters| && run[i].waiters[w].chan == Some(Got(resp, c)) && resp.ResponseErr?
       && ReadOn(p, run, i, c, w, resp)
  }

  ghost predicate Refused(p: Params, run: seq<State>, n: nat, t: nat) {
    exists i: nat, resp :: i < n && RefusedAt(p, run, i, t, resp)
  }

  /** What ends a call at once: Close, the server's refusal, the context, or the death
      of the connection its command was written on. */
  ghost predicate Fatal(p: Params, run: seq<State>, n: nat, t: nat, e: Err)
    requires n < |run|
  {
    || (e == ConnectionClosed && run[n].closed)
    || (e == AuthError && Refused(p, run, n, t))
    || Cancelled(p, run, n, t, e)
    || (exists c: nat :: LostAnswer(run[n], t, c, e))
  }

  /** What costs a call one attempt: a failed dial or handshake, or no live connection to write on. */
  ghost predicate Failing(p: Params, run: seq<State>, n: nat, t: nat, e: Err)
    requires n < |run|
  {
    && e != AuthError
    && (|| AttemptFailed(p, run, n, t, e)
        || (e == ConnectionError && exists c: nat :: Unsent(run[n], t, c))
        || (exists c: nat :: DiedOf(run[n], c, e) && OpenedBy(run[n], t, c)))
  }

  // --- what a thread carries ---

  /** The error a place carries towards the end of the call; that of a re-dial
      with budget left goes no further. */
  function Carries(th: Thread): Option<Err> {
    match th.pc
    case Leaving(_, _, _, why) => Some(why)
    case Kill(_, _, AfterGreeting(why)) => Some(why)
    case Sending(_, _, _, AfterGreeting(why)) => Some(why)
    case Redial(why) => if th.budget == 0 then Some(why) else None
    case Unlock(Bail(why)) => Some(why)
    case Release(Err(e)) => Some(e)
    case Done(Err(e)) => Some(e)
    case _ => None
  }

  /** From the gate to the second look at the current connection. */
  predicate Looking(pc: PC) {
    pc.AcqWait? || pc.AcqCheck? || pc.LiveTop? || pc.ReadConn? || pc.CheckAlive? || pc.LockWait? || pc.Recheck?
    || pc.ReRead? || pc.ReCheckAlive?
  }

  /** Inside an establish attempt, or between two. */
  predicate Attempting(pc: PC) {
    match pc
    case Leaving(_, Opening(_), _, _) => true
    case Kill(_, _, AfterGreeting(_)) => true
    case Sending(_, _, _, AfterGreeting(_)) => true
    case Redial(_) => true
    case _ => false
  }

  /** Why thread t may carry error e: what costs an attempt ends the call only when the budget is spent. */
  ghost predicate Explained(p: Params, run: seq<State>, n: nat, t: nat, e: Err)
    requires n < |run| && At(run[n], t)
  {
    || Fatal(p, run, n, t, e)
    || (Failing(p, run, n, t, e) && (Attempting(Pc(run[n], t)) || run[n].threads[t].budget == 0))
  }

  /** Budget is spent before the first dispatch only inside a re-dial; whoever awaits
      the answer to its command has written it. */
  predicate LoopOk(s: State, th: Thread) {
    && (th.kind == Caller && th.tried == [] && Looking(th.pc) ==> th.budget == REDIALS)
    && ((th.pc.Awaiting? || th.pc.Leaving?) && th.pc.m.User? ==> th.writes >= 1)
    && (th.pc.AcqReturn? ==> s.gateClosed)
  }

  ghost predicate BlameOk(p: Params, run: seq<State>, n: nat, t: nat)
    requires n < |run| && At(run[n], t)
  {
    var th := run[n].threads[t];
    var e := Carries(th);
    && LoopOk(run[n], th)
    && (th.kind == Caller && e.Some? && !e.value.ServerError? ==> Explained(p, run, n, t, e.value))
  }

  // --- control flow ---

  /** The step finds that the request cannot be written on a dead connection. */
  predicate FindsUnsent(s: State, st: Step, th: Thread) {
    || (st.Live? && st.l.DecideAliveAgain? && th.pc.ReCheckAlive? && th.budget == 0)
    || (st.Dispatch? && st.d.RegisterWaiter? && th.pc.Register? && !Alive(s, th.pc.c))
    || (st.Delivery? && st.v.PoisonDone? && th.pc.Sending? && th.pc.after.AfterWrite?)
  }

  predicate Gets(s: State, st: Step, pc: PC) {
    st.Dispatch? && st.d.Receive? && pc.Awaiting? && pc.w < |s.waiters| && s.waiters[pc.w].chan.Some?
  }

  predicate Cancels(st: Step, pc: PC, e: Err) {
    (st.Gate? && st.g == AcqCancel(e)) || (st.Dispatch? && st.d == ContextEnds(e) && pc.Awaiting? && pc.m.User?)
  }

  predicate FailsAttempt(st: Step, pc: PC, e: Err) {
    && IsContextError(e)
    && ((st.Live? && st.l == DialFails(e)) || (st.Dispatch? && st.d == ContextEnds(e) && pc.Awaiting? && pc.m.Opening?))
  }

  /** Where the error a place carries comes from. */
  predicate BlameMove(p: Params, s: State, st: Step, th: Thread, th': Thread) {
    Carries(th').Some? && !Carries(th').value.ServerError? ==>
      var e := Carries(th').value;
      var free := Attempting(th'.pc) || th'.budget == 0;
      || (Carries(th) == Some(e) && (free || !Attempting(th.pc) || e == AuthError))
      || (e == ConnectionClosed && (s.closed || s.gateClosed))
      || Cancels(st, th.pc, e)
      || (FailsAttempt(st, th.pc, e) && free)
      || (e == ConnectionError && FindsUnsent(s, st, th) && free)
      || (e == AuthError && Handshake.Opening(p.hs).Err?)
      || (Gets(s, st, th.pc) && s.waiters[th.pc.w].chan.value == Failed(e) && (th.pc.m.User? || free))
      || (e == AuthError && Gets(s, st, th.pc) && th.pc.m.Opening? && s.waiters[th.pc.w].chan.value.Got?
          && s.waiters[th.pc.w].chan.value.resp.ResponseErr?)
  }

  lemma GateBlame(p: Params, s: State, t: nat, g: GateAction)
    requires At(s, t) && GateEnabled(p, s, Pc(s, t), g) && (Pc(s, t).AcqReturn? ==> s.gateClosed)
    ensures BlameMove(p, s, Gate(t, g), s.threads[t], s.threads[t].(pc := GatePc(s, Pc(s, t), g)))
  {
  }

  lemma LiveBlame(p: Params, s: State, t: nat, l: LiveAction)
    requires At(s, t) && LiveEnabled(s, Pc(s, t), l) && s.threads[t].kind == Caller
    ensures BlameMove(p, s, Live(t, l), s.threads[t], LiveThread(p, s, s.threads[t], l))
  {
    hide Alive, Frames, Handshake.Learned;
  }

  lemma DispatchBlame(p: Params, s: State, t: nat, d: DispatchAction)
    requires At(s, t) && DispatchEnabled(s, Pc(s, t), d) && CleanPc(Pc(s, t))
    requires d.Receive? && s.waiters[Pc(s, t).w].chan.value.Failed? ==> Local(s.waiters[Pc(s, t).w].chan.value.e)
    ensures BlameMove(p, s, Dispatch(t, d), s.threads[t], DispatchThread(s, s.threads[t], d))
  {
    hide Alive;
  }

  lemma DeliveryBlame(p: Params, s: State, t: nat, v: DeliveryAction)
    requires At(s, t) && DeliveryEnabled(s, Pc(s, t), v) && CleanPc(Pc(s, t)) && s.threads[t].kind == Caller
    ensures BlameMove(p, s, Delivery(t, v), s.threads[t], s.threads[t].(pc := DeliveryPc(p, s, s.threads[t], v)))
  {
    hide OnBody;
  }

  lemma MoverBlame(p: Params, s: State, st: Step)
    requires WaitersOk(s) && ErrorsOk(s) && Enabled(p, s, st) && !st.BeginCall? && !st.BeginClose?
    requires s.threads[st.t].kind == Caller && (Pc(s, st.t).AcqReturn? ==> s.gateClosed)
    ensures BlameMove(p, s, st, s.threads[st.t], Moved(p, s, st))
  {
    hide BlameMove, GatePc, LiveThread, DispatchThread, DeliveryPc, WaitersOk, GateEnabled, LiveEnabled, DeliveryEnabled, CleanPc;
    assert PcOk(s, Pc(s, st.t));
    match st {
      case Gate(t, g) => GateBlame(p, s, t, g);
      case Live(t, l) => LiveBlame(p, s, t, l);
      case Dispatch(t, d) =>
        if d.Receive? && s.waiters[Pc(s, t).w].chan.value.Failed? { FailureMeansDeath(s, t); }
        DispatchBlame(p, s, t, d);
      case Delivery(t, v) => DeliveryBlame(p, s, t, v);
    }
  }

  /** A place that carries an error is not one where a command is dispatched or written, or budget spent. */
  lemma CarriersKeep(p: Params, s: State, st: Step)
    requires Enabled(p, s, st) && !st.BeginCall? && !st.BeginClose? && Carries(Moved(p, s, st)).Some?
    ensures var th, th' := s.threads[st.t], Moved(p, s, st);
      th'.tried == th.tried && th'.writes == th.writes && th'.budget == th.budget
  {
    hide GatePc, DeliveryPc, AfterDispatch, Received, Alive;
  }

  /** Back to the top of the loop only with the budget unspent, or a connection tried. */
  lemma LookersMove(p: Params, s: State, st: Step)
    requires Enabled(p, s, st) && !st.BeginCall? && !st.BeginClose? && LoopMove(s, st, Pc(s, st.t), Moved(p, s, st).pc)
    requires Suits(Caller, Pc(s, st.t)) && CleanReceipt(s, st, Pc(s, st.t))
    ensures Looking(Moved(p, s, st).pc) ==>
      Moved(p, s, st).budget == s.threads[st.t].budget && (Looking(Pc(s, st.t)) || Target(Pc(s, st.t)).Some?)
    ensures Moved(p, s, st).pc.AcqReturn? ==> s.gateClosed
  {
    hide OnBody, Alive, Received, Frames, Handshake.Opening, Handshake.Learned, HoldsLock, LoopMove;
  }

  predicate AwaitsOwn(pc: PC) { (pc.Awaiting? || pc.Leaving?) && pc.m.User? }

  lemma AwaitersMove(p: Params, s: State, st: Step)
    requires Enabled(p, s, st) && !st.BeginCall? && !st.BeginClose? && AwaitsOwn(Moved(p, s, st).pc)
    ensures AwaitsOwn(Pc(s, st.t)) || (st.Dispatch? && st.d.WriteSucceeds? && Target(Pc(s, st.t)).Some?)
  {
    hide OnBody, Alive, Received, Frames, Handshake.Opening, Handshake.Learned;
  }

  lemma LoopOkMoves(p: Params, s: State, st: Step)
    requires Enabled(p, s, st) && !st.BeginCall? && !st.BeginClose? && LoopOk(s, s.threads[st.t])
    requires TriedDead(s, s.threads[st.t]) && s.threads[st.t].kind == Caller && Suits(Caller, Pc(s, st.t))
    requires CleanReceipt(s, st, Pc(s, st.t))
    ensures LoopOk(s, Moved(p, s, st))
  {
    assert At(s, st.t);
    hide Enabled, Moved, LoopMove, CleanReceipt, Suits, HoldsLock, Enters;
    MovedHistory(p, s, st);
    MoverLoop(p, s, st);
    LookersMove(p, s, st);
    if AwaitsOwn(Moved(p, s, st).pc) { AwaitersMove(p, s, st); }
  }

  // --- a request that was not written ---

  lemma UnsentWhere(p: Params, s: State, st: Step) returns (c: nat)
    requires Enabled(p, s, st) && !st.BeginCall? && !st.BeginClose?
    requires RetryOk(s, s.threads[st.t]) && ErrorsOk(s) && InstalledOk(s)
    requires s.threads[st.t].kind == Caller && LoopOk(s, s.threads[st.t]) && FindsUnsent(s, st, s.threads[st.t])
    ensures Unsent(s, st.t, c)
  {
    assert OpeningOk(s, st.t) && PcOk(s, Pc(s, st.t));
    hide Enabled, ErrorsOk, InstalledOk, TriedPlaced, CandidateOk, BudgetOk, DeliveringOk, CleanPc;
    var th := s.threads[st.t];
    if th.pc.ReCheckAlive? {
      c := th.tried[|th.tried| - 1];
    } else {
      c := th.pc.c;
    }
  }

  // --- what lasts ---

  /** Thread t still has the history it had. */
  predicate SameHistory(s: State, s': State, t: nat) {
    At(s, t) && At(s', t) && s'.threads[t].tried == s.threads[t].tried && s'.threads[t].writes == s.threads[t].writes
    && s'.threads[t].budget == s.threads[t].budget
  }

  lemma FatalStays(p: Params, run: seq<State>, n: nat, t: nat, e: Err)
    requires n + 1 < |run| && Fatal(p, run, n, t, e) && Grows(run[n], run[n + 1]) && SameHistory(run[n], run[n + 1], t)
    ensures Fatal(p, run, n + 1, t, e)
  {
    hide CancelledAt, RefusedAt;
    var s, s' := run[n], run[n + 1];
    if Cancelled(p, run, n, t, e) {
      var i: nat :| i < n && CancelledAt(p, run, i, t, e);
    } else if e == AuthError && Refused(p, run, n, t) {
      var i: nat, resp :| i < n && RefusedAt(p, run, i, t, resp);
    } else if c: nat :| LostAnswer(s, t, c, e) {
      assert ConnGrows(s.conns[c], s'.conns[c]);
      assert LostAnswer(s', t, c, e);
    }
  }

  lemma FailingStays(p: Params, run: seq<State>, n: nat, t: nat, e: Err)
    requires n + 1 < |run| && Failing(p, run, n, t, e) && Grows(run[n], run[n + 1]) && SameHistory(run[n], run[n + 1], t)
    ensures Failing(p, run, n + 1, t, e)
  {
    hide AttemptFailsAt;
    var s, s' := run[n], run[n + 1];
    if AttemptFailed(p, run, n, t, e) {
      var i: nat :| i < n && AttemptFailsAt(p, run, i, t, e);
    } else if c: nat :| Unsent(s, t, c) && e == ConnectionError {
      assert ConnGrows(s.conns[c], s'.conns[c]);
      assert Unsent(s', t, c);
    } else if c: nat :| DiedOf(s, c, e) && OpenedBy(s, t, c) {
      assert ConnGrows(s.conns[c], s'.conns[c]);
      assert DiedOf(s', c, e) && OpenedBy(s', t, c);
    }
  }

  lemma ExplainedStays(p: Params, run: seq<State>, n: nat, t: nat, e: Err)
    requires n + 1 < |run| && SameHistory(run[n], run[n + 1], t) && Grows(run[n], run[n + 1]) && Explained(p, run, n, t, e)
    requires Attempting(Pc(run[n + 1], t)) || run[n + 1].threads[t].budget == 0 || !Attempting(Pc(run[n], t)) || e == AuthError
    ensures Explained(p, run, n + 1, t, e)
  {
    hide Fatal, Grows, AttemptFailed, Unsent, DiedOf, OpenedBy;
    if Fatal(p, run, n, t, e) { FatalStays(p, run, n, t, e); } else { FailingStays(p, run, n, t, e); }
  }

  // --- the causes, one by one ---

  lemma ClosedExplains(p: Params, run: seq<State>, i: nat, t: nat)
    requires i + 1 < |run| && At(run[i + 1], t) && RolesOk(run[i]) && Grows(run[i], run[i + 1])
    requires run[i].closed || run[i].gateClosed
    ensures Explained(p, run, i + 1, t, ConnectionClosed)
  {
  }

  lemma CancelExplains(p: Params, run: seq<State>, i: nat, st: Step, e: Err)
    requires Takes(p, run, i, st) && !st.BeginCall? && !st.BeginClose? && At(run[i], st.t) && At(run[i + 1], st.t)
    requires Cancels(st, Pc(run[i], st.t), e)
    ensures Explained(p, run, i + 1, st.t, e)
  {
    hide Apply, Enabled;
    assert CancelledAt(p, run, i, st.t, e);
  }

  lemma AttemptExplains(p: Params, run: seq<State>, i: nat, st: Step, e: Err)
    requires Takes(p, run, i, st) && !st.BeginCall? && !st.BeginClose? && At(run[i], st.t) && At(run[i + 1], st.t)
    requires FailsAttempt(st, Pc(run[i], st.t), e)
    requires Attempting(Pc(run[i + 1], st.t)) || run[i + 1].threads[st.t].budget == 0
    ensures Explained(p, run, i + 1, st.t, e)
  {
    hide Apply, Enabled;
    assert AttemptFailsAt(p, run, i, st.t, e);
  }

  lemma UnsentExplains(p: Params, run: seq<State>, i: nat, t: nat, c: nat)
    requires i + 1 < |run| && SameHistory(run[i], run[i + 1], t) && Grows(run[i], run[i + 1]) && Unsent(run[i], t, c)
    requires Attempting(Pc(run[i + 1], t)) || run[i + 1].threads[t].budget == 0
    ensures Explained(p, run, i + 1, t, ConnectionError)
  {
    assert Failing(p, run, i, t, ConnectionError);
    FailingStays(p, run, i, t, ConnectionError);
  }

  /** A failure received is the first error of the connection in use. */
  lemma FailureExplains(p: Params, run: seq<State>, i: nat, t: nat, e: Err)
    requires IsRun(p, run) && i + 1 < |run| && SameHistory(run[i], run[i + 1], t) && Grows(run[i], run[i + 1])
    requires WaitersOk(run[i]) && ErrorsOk(run[i]) && InstalledOk(run[i]) && RetryOk(run[i], run[i].threads[t])
    requires LoopOk(run[i], run[i].threads[t])
    requires Pc(run[i], t).Awaiting? && Pc(run[i], t).w < |run[i].waiters| && run[i].waiters[Pc(run[i], t).w].chan == Some(Failed(e))
    requires Pc(run[i], t).m.User? || Attempting(Pc(run[i + 1], t)) || run[i + 1].threads[t].budget == 0
    ensures Explained(p, run, i + 1, t, e)
  {
    hide IsRun, WaitersOk, ErrorsOk, Cancelled, Refused, AttemptFailed, TriedPlaced, CandidateOk, BudgetOk, Grows;
    var s, c := run[i], Pc(run[i], t).c;
    FailureMeansDeath(s, t);
    assert OpeningOk(s, t);
    if Pc(s, t).m.User? {
      assert LostAnswer(s, t, c, e);
      FatalStays(p, run, i, t, e);
    } else {
      FirstErrorHasCause(p, run, i, c);
      BrokenIsNoRefusal(p, run, i, c, e);
      assert DiedOf(s, c, e) && OpenedBy(s, t, c);
      FailingStays(p, run, i, t, e);
    }
  }

  /** No event breaks a connection with an authentication error. */
  lemma BrokenIsNoRefusal(p: Params, run: seq<State>, n: nat, c: nat, e: Err)
    requires Broken(p, run, n, c, e)
    ensures e != AuthError
  {
    hide Apply;
    var i: nat, st :| i < n && BrokeAt(p, run, i, st, c, e);
    BreakIsNoRefusal(p, run[i], st, c, e);
  }

  lemma BreakIsNoRefusal(p: Params, s: State, st: Step, c: nat, e: Err)
    requires Enabled(p, s, st) && Breaks(p, s, st, c, e)
    ensures e != AuthError
  {
  }

  lemma CallersAreAccepted(p: Params, s: State, t: nat)
    requires RolesOk(s) && GreetingsOk(p, s) && At(s, t) && s.threads[t].kind == Caller
    ensures Handshake.Opening(p.hs).Ok?
  {
    hide Handshake.Opening, Suits, HoldsLock, GreetPc, GreetConn;
    assert RoleOk(s, t);
  }

  lemma RefusalIsRead(p: Params, run: seq<State>, i: nat, t: nat)
    requires IsRun(p, run) && Takes(p, run, i, Dispatch(t, Receive)) && Gets(run[i], Dispatch(t, Receive), Pc(run[i], t))
    requires var d := run[i].waiters[Pc(run[i], t).w].chan.value; Pc(run[i], t).m.Opening? && d.Got? && d.resp.ResponseErr?
    ensures Refused(p, run, i + 1, t)
  {
    hide IsRun, ReadOn, Apply;
    var s := run[i];
    var Awaiting(c, m, w) := Pc(s, t);
    var d := s.waiters[w].chan.value;
    assert WaitersOk(s) && AllSentOk(s) by { hide WaitersOk; RunKeepsInvariant(p, run, i); }
    assert ThreadOk(s, t) && ChannelOk(s, w) && SentOk(s, s.waiters[w]);
    assert d in s.waiters[w].sends;
    SentWasRead(p, run, i, w, d.resp, c);
    assert RefusedAt(p, run, i, t, d.resp);
  }

  lemma RefusalExplains(p: Params, run: seq<State>, n: nat, t: nat)
    requires n < |run| && At(run[n], t) && Refused(p, run, n, t)
    ensures Explained(p, run, n, t, AuthError)
  {
  }

  lemma ReceivesHere(st: Step)
    requires st.Dispatch? && st.d.Receive?
    ensures st == Dispatch(st.t, Receive)
  {
  }

  lemma RetryHolds(s: State, t: nat)
    requires RetriesOk(s) && At(s, t)
    ensures RetryOk(s, s.threads[t])
  {
  }

  /** What the moving thread carries after its step is explained. */
  lemma MoverExplained(p: Params, run: seq<State>, i: nat, st: Step, e: Err)
    requires IsRun(p, run) && Takes(p, run, i, st) && !st.BeginCall? && !st.BeginClose? && Grows(run[i], run[i + 1])
    requires At(run[i], st.t) && At(run[i + 1], st.t) && run[i + 1].threads[st.t] == Moved(p, run[i], st)
    requires run[i].threads[st.t].kind == Caller && BlameOk(p, run, i, st.t)
    requires Carries(Moved(p, run[i], st)) == Some(e) && !e.ServerError?
    ensures Explained(p, run, i + 1, st.t, e)
  {
    hide Apply, Enabled, IsRun, Moved, Grows, Explained, WaitersOk, ErrorsOk, RolesOk, RetriesOk, InstalledOk, GreetingsOk;
    hide FindsUnsent, Cancels, FailsAttempt, RetryOk, LoopOk;
    var s, t := run[i], st.t;
    assert WaitersOk(s) && ErrorsOk(s) && RolesOk(s) && RetriesOk(s) && InstalledOk(s) && GreetingsOk(p, s) by {
      RunKeepsInvariant(p, run, i);
    }
    LoopMeans(s, s.threads[t]);
    MoverBlame(p, s, st);
    CarriersKeep(p, s, st);
    RetryHolds(s, t);
    var free := Attempting(Pc(run[i + 1], t)) || run[i + 1].threads[t].budget == 0;
    if Carries(s.threads[t]) == Some(e) && (free || !Attempting(Pc(s, t)) || e == AuthError) {
      ExplainedStays(p, run, i, t, e);
    } else if e == ConnectionClosed && (s.closed || s.gateClosed) {
      ClosedExplains(p, run, i, t);
    } else if Cancels(st, Pc(s, t), e) {
      CancelExplains(p, run, i, st, e);
    } else if FailsAttempt(st, Pc(s, t), e) && free {
      AttemptExplains(p, run, i, st, e);
    } else if e == ConnectionError && FindsUnsent(s, st, s.threads[t]) && free {
      var c := UnsentWhere(p, s, st);
      UnsentExplains(p, run, i, t, c);
    } else if Gets(s, st, Pc(s, t)) && s.waiters[Pc(s, t).w].chan.value == Failed(e) && (Pc(s, t).m.User? || free) {
      FailureExplains(p, run, i, t, e);
    } else {
      CallersAreAccepted(p, s, t);
      ReceivesHere(st);
      RefusalIsRead(p, run, i, t);
      RefusalExplains(p, run, i + 1, t);
    }
  }

  lemma LoopMeans(s: State, th: Thread)
    requires LoopOk(s, th)
    ensures th.pc.AcqReturn? ==> s.gateClosed
  {
  }

  // --- over runs ---

  /** Every error of this side that a call carries has its cause in the run. */
  lemma {:induction false} CarriedIsExplained(p: Params, run: seq<State>, n: nat, t: nat)
    requires IsRun(p, run) && n < |run| && At(run[n], t)
    ensures BlameOk(p, run, n, t)
  {
    hide Enabled, Apply, IsRun, Moved, Takes, Grows, BlameOk;
    if n == 0 {
      StartCarriesNoError(p, run, t);
    } else {
      var s, s' := run[n - 1], run[n];
      var st := StepOf(p, run, n - 1);
      TookStep(p, run, n - 1, st);
      StepThreads(p, s, st, s');
      StepGrows(p, s, st, s');
      if t < |s.threads| {
        CarriedIsExplained(p, run, n - 1, t);
        if !st.BeginCall? && !st.BeginClose? && st.t == t {
          MoverBlameOk(p, run, n - 1, st);
        } else {
          BlameStays(p, run, n - 1, t);
        }
      } else {
        NewBlameOk(p, run, n - 1, st, t);
      }
    }
  }

  lemma StartCarriesNoError(p: Params, run: seq<State>, t: nat)
    requires IsRun(p, run) && At(run[0], t)
    ensures BlameOk(p, run, 0, t)
  {
  }

  lemma BlameStays(p: Params, run: seq<State>, i: nat, t: nat)
    requires i + 1 < |run| && At(run[i], t) && At(run[i + 1], t) && run[i + 1].threads[t] == run[i].threads[t]
    requires Grows(run[i], run[i + 1]) && BlameOk(p, run, i, t)
    ensures BlameOk(p, run, i + 1, t)
  {
    hide Explained;
    var e := Carries(run[i].threads[t]);
    if e.Some? && Explained(p, run, i, t, e.value) { ExplainedStays(p, run, i, t, e.value); }
  }

  lemma NewBlameOk(p: Params, run: seq<State>, i: nat, st: Step, t: nat)
    requires IsRun(p, run) && Takes(p, run, i, st) && At(run[i + 1], t) && !At(run[i], t) && Grows(run[i], run[i + 1])
    ensures BlameOk(p, run, i + 1, t)
  {
    hide Apply, Enabled, IsRun, Moved, Explained, RolesOk;
    StepThreads(p, run[i], st, run[i + 1]);
    if run[i].gateClosed {
      assert RolesOk(run[i]) by { RunKeepsInvariant(p, run, i); }
      ClosedExplains(p, run, i, t);
    }
  }

  lemma MoverBlameOk(p: Params, run: seq<State>, i: nat, st: Step)
    requires IsRun(p, run) && Takes(p, run, i, st) && !st.BeginCall? && !st.BeginClose? && Grows(run[i], run[i + 1])
    requires At(run[i], st.t) && At(run[i + 1], st.t) && run[i + 1].threads[st.t] == Moved(p, run[i], st)
    requires BlameOk(p, run, i, st.t)
    ensures BlameOk(p, run, i + 1, st.t)
  {
    hide Apply, Enabled, IsRun, Moved, Explained, Suits, HoldsLock, WaitersOk, ErrorsOk, RetriesOk, CleanReceipt, LoopOk;
    hide CandidateOk, TriedPlaced;
    var s, t := run[i], st.t;
    assert WaitersOk(s) && ErrorsOk(s) && RolesOk(s) && RetriesOk(s) by { hide RolesOk; RunKeepsInvariant(p, run, i); }
    assert RoleOk(s, t);
    RetryHolds(s, t);
    MovedHistory(p, s, st);
    if s.threads[t].kind == Caller {
      ReceiptIsClean(p, s, st);
      LoopOkMoves(p, s, st);
      var e := Carries(run[i + 1].threads[t]);
      if e.Some? && !e.value.ServerError? { MoverExplained(p, run, i, st, e.value); }
    } else {
      OthersLookNowhere(p, s, st);
    }
    LoopStays(s, run[i + 1], run[i + 1].threads[t]);
  }

  lemma LoopStays(s: State, s': State, th: Thread)
    requires LoopOk(s, th) && Grows(s, s')
    ensures LoopOk(s', th)
  {
  }

  lemma OthersLookNowhere(p: Params, s: State, st: Step)
    requires Enabled(p, s, st) && !st.BeginCall? && !st.BeginClose? && s.threads[st.t].kind != Caller
    requires Suits(s.threads[st.t].kind, Pc(s, st.t))
    ensures LoopOk(s, Moved(p, s, st))
  {
    hide Moved;
    MoverSuits(p, s, st);
    MovedHistory(p, s, st);
  }
}
