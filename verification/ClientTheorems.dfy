/** What holds in every state of every run of the client. */
module ClientTheorems {
  import opened Wrappers
  import opened MsgPack
  import opened Values
  import opened ClientTypes
  import opened Client
  import opened ClientWaiters
  import opened ClientHistory
  import opened ClientControl
  import opened ClientErrors
  import opened ClientIds
  import opened ClientRoles
  import opened ClientLife
  import opened ClientOpening
  import opened ClientTotals
  import opened ClientCounts
  import opened ClientRetry
  import opened ClientOnce
  import opened ClientRouting
  import opened ClientAnswers
  import opened ClientGreeting
  import opened ClientAccounts
  import opened ClientInvariant
  import opened ClientRuns
  import opened ClientBegins
  import opened ClientOrigins
  import opened ClientCauses
  import opened ClientBlame
  import Handshake
  import Ids

  // --- waiters ---

  predicate Entry(s: State, c: nat, id: u32, w: nat) {
    c < |s.conns| && id in s.conns[c].table.pending && s.conns[c].table.pending[id] == w
  }

  /** A waiter is in one place at most: in the table of its connection under its
      id, in the hands of one thread, or sent on; and it is sent on at most once. */
  lemma OnePlace(p: Params, s: State, w: nat)
    requires Reachable(p, s) && w < |s.waiters|
    ensures s.waiters[w].place == InTable <==> Entry(s, s.waiters[w].conn, s.waiters[w].id, w)
    ensures forall c: nat, id: u32 | Entry(s, c, id, w) :: c == s.waiters[w].conn && id == s.waiters[w].id
    ensures forall t: nat :: IsCarried(s, w, t) <==> s.waiters[w].place == Held(t)
    ensures |s.waiters[w].sends| == if s.waiters[w].place == Sent then 1 else 0
  {
    hide Reachable;
    assert WaitersOk(s) by { hide Slot, Carried; ReachableKeepsInvariant(p, s); }
    assert ChannelOk(s, w);
    forall c: nat, id: u32 | Entry(s, c, id, w)
      ensures c == s.waiters[w].conn && id == s.waiters[w].id && s.waiters[w].place == InTable
    {
      assert PointsToIts(s, c, id);
    }
    if s.waiters[w].place == InTable { assert IsRegistered(s, w); }
    forall t: nat ensures IsCarried(s, w, t) <==> s.waiters[w].place == Held(t) {
      if t < |s.threads| { assert ThreadOk(s, t); }
      if s.waiters[w].place.Held? { assert IsCarried(s, w, s.waiters[w].place.holder); }
    }
  }

  /** A reader or poisoner that has taken a waiter can always send to it. */
  lemma SendsNeverBlock(p: Params, s: State, t: nat, w: nat)
    requires Reachable(p, s) && At(s, t) && w in Carried(Pc(s, t))
    ensures Pc(s, t).Sending? ==> Enabled(p, s, Delivery(t, PoisonSend(w)))
    ensures Pc(s, t).Delivering? ==> Enabled(p, s, Delivery(t, DeliverResponse))
  {
    hide Reachable;
    assert WaitersOk(s) by { ReachableKeepsInvariant(p, s); }
    assert ThreadOk(s, t) && ChannelOk(s, w);
  }

  /** A finished call has left no entry in any table. */
  lemma NothingIsLeftBehind(p: Params, s: State, t: nat, c: nat, id: u32)
    requires Reachable(p, s) && At(s, t) && Pc(s, t).Done? && c < |s.conns| && id in s.conns[c].table.pending
    ensures s.conns[c].table.pending[id] < |s.waiters| && s.waiters[s.conns[c].table.pending[id]].owner != t
  {
    hide Reachable;
    assert WaitersOk(s) by { ReachableKeepsInvariant(p, s); }
    assert PointsToIts(s, c, id);
    assert IsRegistered(s, s.conns[c].table.pending[id]);
  }

  // --- errors and routing ---

  /** A connection is dead exactly when it was poisoned, and then nothing waits in its table. */
  lemma DeadMeansPoisoned(p: Params, s: State, c: nat)
    requires Reachable(p, s) && c < |s.conns|
    ensures s.conns[c].table.alive <==> s.conns[c].error == None
    ensures !s.conns[c].table.alive ==> s.conns[c].table.pending == map[]
  {
    hide Reachable;
    assert LinkOk(s.conns[c]) by { ReachableKeepsInvariant(p, s); }
  }

  /** Every waiter failed on a connection gets the error of its first poison. A
      response goes to the waiter with its id, on the connection it was read from,
      and is what a body read there decodes to. */
  lemma WhatIsSent(p: Params, run: seq<State>, n: nat, w: nat, d: Message)
    requires IsRun(p, run) && n < |run| && w < |run[n].waiters| && d in run[n].waiters[w].sends
    ensures var s, x := run[n], run[n].waiters[w];
      && (d.Failed? ==> x.conn < |s.conns| && s.conns[x.conn].error == Some(d.e))
      && (d.Got? ==> d.resp.id == x.id && d.from == x.conn && ReadOn(p, run, n, x.conn, w, d.resp))
  {
    hide IsRun, ReadOn;
    assert SentOk(run[n], run[n].waiters[w]) by { RunKeepsInvariant(p, run, n); }
    if d.Got? { SentWasRead(p, run, n, w, d.resp, d.from); }
  }

  /** What a waiting caller finds in its channel answers the frame it wrote: same
      connection, same id, read there; or it is the first error of that connection. */
  lemma CallerGetsItsAnswer(p: Params, run: seq<State>, n: nat, t: nat)
    requires IsRun(p, run) && n < |run| && At(run[n], t) && Pc(run[n], t).Awaiting? && Pc(run[n], t).w < |run[n].waiters|
    requires run[n].waiters[Pc(run[n], t).w].chan.Some?
    ensures var s, Awaiting(c, m, w) := run[n], Pc(run[n], t);
      match s.waiters[w].chan.value
      case Got(resp, from) => from == c && OnTheWire(s, c, t, m, resp.id) && ReadOn(p, run, n, c, w, resp)
      case Failed(e) => c < |s.conns| && s.conns[c].error == Some(e) && !s.conns[c].table.alive && Local(e)
  {
    hide IsRun, OnTheWire, ReadOn, ErrorsOk;
    var s, w := run[n], Pc(run[n], t).w;
    assert WaitersOk(s) && ErrorsOk(s) && RoutingOk(s) by { RunKeepsInvariant(p, run, n); }
    assert ThreadOk(s, t) && ChannelOk(s, w) && WroteIt(s, t);
    assert s.waiters[w].chan.value in s.waiters[w].sends;
    WhatIsSent(p, run, n, w, s.waiters[w].chan.value);
    if s.waiters[w].chan.value.Failed? { FailureMeansDeath(s, t); }
  }

  /** Thread t wrote cmd on a connection, under the id of waiter w, and resp is the
      one thing ever sent to w: read on that connection, with that id. */
  ghost predicate Served(p: Params, run: seq<State>, n: nat, t: nat, cmd: Command, w: nat, i: nat, resp: Response) {
    && n < |run| && At(run[n], t) && w < |run[n].waiters|
    && var s, x := run[n], run[n].waiters[w];
       && x.owner == t && x.sends == [Got(resp, x.conn)] && resp.id == x.id
       && ReadOn(p, run, n, x.conn, w, resp)
       && FrameIs(s, x.conn, i, t, User, x.id)
       && s.conns[x.conn].written[i].req == Request(x.id, cmd.name, cmd.args)
  }

  /** A value or a server error a call returns is what the response to its own
      command says: the command, with its arguments, of the one step that began it. */
  lemma ReturnsItsOwnAnswer(p: Params, run: seq<State>, n: nat, t: nat)
    returns (b: nat, cmd: Command, w: nat, i: nat, resp: Response)
    requires IsRun(p, run) && n < |run| && At(run[n], t) && run[n].threads[t].kind == Caller
    requires Pc(run[n], t).Done? && FromServer(Pc(run[n], t).out)
    ensures BegunAt(p, run, b, t, cmd) && forall j: nat, other | BegunAt(p, run, j, t, other) :: j == b && other == cmd
    ensures Served(p, run, n, t, cmd, w, i, resp)
    ensures Pc(run[n], t).out == match resp case ResponseOk(_, v) => Ok(v) case ResponseErr(_, m) => Err(ServerError(m))
  {
    hide IsRun, ReadOn, OpeningsOk, BegunAt;
    var s := run[n];
    b, cmd := CallIsBegunOnce(p, run, n, t);
    assert AnswersOk(s) && OpeningsOk(p, s) by { hide AnswersOk; RunKeepsInvariant(p, run, n); }
    assert AnswerOk(s, t);
    w :| AnswerIs(s, t, Pc(s, t).out, w);
    i :| FrameIs(s, s.waiters[w].conn, i, t, User, s.waiters[w].id);
    resp := s.waiters[w].sends[0].resp;
    RunReaches(p, run, n);
    OnePlace(p, s, w);
    assert s.waiters[w].sends[0] in s.waiters[w].sends;
    WhatIsSent(p, run, n, w, s.waiters[w].sends[0]);
    CommandFrame(p, s, s.waiters[w].conn, i);
  }

  lemma CommandFrame(p: Params, s: State, c: nat, i: nat)
    requires OpeningsOk(p, s) && c < |s.conns| && i < |s.conns[c].written| && s.conns[c].written[i].mode.User?
    ensures CallFrame(s, s.conns[c], i)
  {
    hide Frames;
    assert WrittenOk(p, s, s.conns[c]);
    assert i < Opened(p, s.conns[c]) ==> OpeningFrame(p, s.conns[c], i);
  }

  /** A call that ends with an error of this side: Close had been called, the server
      refused the handshake, the context ended, or the connection its command was
      written on died, with that connection's first error, which an event that broke
      it explains. Anything else, a failed dial or handshake or the lack of a live
      connection to write on, ends a call only when both establish attempts are spent. */
  lemma LocalErrorsAreExplained(p: Params, run: seq<State>, n: nat, t: nat)
    requires IsRun(p, run) && n < |run| && At(run[n], t) && run[n].threads[t].kind == Caller
    requires Pc(run[n], t).Done? && Pc(run[n], t).out.Err? && !Pc(run[n], t).out.error.ServerError?
    ensures var s, e := run[n], Pc(run[n], t).out.error;
      || (e == ConnectionClosed && s.closed)
      || (e == AuthError && Refused(p, run, n, t))
      || Cancelled(p, run, n, t, e)
      || (exists c: nat :: LostAnswer(s, t, c, e) && Broken(p, run, n, c, e))
      || (s.threads[t].establishes == 2 && s.threads[t].budget == 0
          && (|| AttemptFailed(p, run, n, t, e)
              || (e == ConnectionError && exists c: nat :: Unsent(s, t, c))
              || (exists c: nat :: DiedOf(s, c, e) && OpenedBy(s, t, c) && Broken(p, run, n, c, e))))
  {
    hide IsRun, Refused, Cancelled, AttemptFailed, Broken, Unsent, RetriesOk;
    var s, e := run[n], Pc(run[n], t).out.error;
    CarriedIsExplained(p, run, n, t);
    assert Explained(p, run, n, t, e);
    assert BudgetOk(s.threads[t]) by {
      assert RetriesOk(s) by { RunKeepsInvariant(p, run, n); }
      RetryHolds(s, t);
    }
    if c: nat :| LostAnswer(s, t, c, e) { FirstErrorHasCause(p, run, n, c); }
    if c: nat :| DiedOf(s, c, e) && OpenedBy(s, t, c) { FirstErrorHasCause(p, run, n, c); }
  }

  /** The connection-closed error is the work of Close, wherever it appears. */
  lemma ClosedMeansClosed(p: Params, run: seq<State>, n: nat, c: nat)
    requires IsRun(p, run) && n < |run| && c < |run[n].conns| && run[n].conns[c].error == Some(ConnectionClosed)
    ensures run[n].closed
  {
    hide IsRun, BrokeAt, Grows;
    FirstErrorHasCause(p, run, n, c);
    var i: nat, st :| i < n && BrokeAt(p, run, i, st, c, ConnectionClosed);
    ClosedBreak(p, run, i, st, c);
    RunGrows(p, run, i, n);
    FlagStays(run[i], run[n]);
  }

  lemma ClosedBreak(p: Params, run: seq<State>, i: nat, st: Step, c: nat)
    requires BrokeAt(p, run, i, st, c, ConnectionClosed)
    ensures run[i].closed
  {
    hide Apply;
  }

  lemma FlagStays(s: State, s': State)
    requires Grows(s, s') && s.closed
    ensures s'.closed
  {
  }

  /** What a caller receives ends its call: the server's answer, or the first error
      of the connection it wrote to. */
  lemma ReceiptEndsTheCall(p: Params, run: seq<State>, n: nat, t: nat)
    requires IsRun(p, run) && n < |run| && At(run[n], t) && Pc(run[n], t).Awaiting? && Pc(run[n], t).m.User?
    requires Pc(run[n], t).w < |run[n].waiters| && run[n].waiters[Pc(run[n], t).w].chan.Some?
    ensures var s, Awaiting(c, m, w) := run[n], Pc(run[n], t);
      match s.waiters[w].chan.value
      case Got(ResponseOk(_, v), _) => DispatchPc(s, s.threads[t], Receive) == Release(Ok(v))
      case Got(ResponseErr(_, text), _) => DispatchPc(s, s.threads[t], Receive) == Release(Err(ServerError(text)))
      case Failed(_) =>
        c < |s.conns| && s.conns[c].error.Some?
        && DispatchPc(s, s.threads[t], Receive) == Release(Err(s.conns[c].error.value))
  {
    hide IsRun, OnTheWire, ReadOn;
    CallerGetsItsAnswer(p, run, n, t);
  }

  /** A re-dial never goes on from an authentication failure. */
  lemma NoRedialAfterAuthError(p: Params, s: State, t: nat)
    requires Reachable(p, s) && At(s, t) && Pc(s, t).Redial?
    ensures Pc(s, t).why != AuthError
  {
    hide Reachable;
    assert PcOk(s, Pc(s, t)) by {
      assert ErrorsOk(s) by { hide ErrorsOk; ReachableKeepsInvariant(p, s); }
    }
  }

  /** On the way from a refused handshake to the end of the call. */
  predicate Rejected(pc: PC) {
    match pc
    case Kill(_, _, AfterGreeting(AuthError)) => true
    case Sending(_, _, _, AfterGreeting(AuthError)) => true
    case Unlock(Bail(AuthError)) => true
    case Release(Err(AuthError)) => true
    case Done(Err(AuthError)) => true
    case _ => false
  }

  lemma RejectedMoves(p: Params, s: State, st: Step)
    requires Enabled(p, s, st) && !st.BeginCall? && !st.BeginClose? && Rejected(Pc(s, st.t))
    ensures Rejected(Moved(p, s, st).pc) && Moved(p, s, st).establishes == s.threads[st.t].establishes
    ensures Moved(p, s, st).tried == s.threads[st.t].tried
  {
  }

  lemma RefusalRejects(p: Params, run: seq<State>, i: nat, t: nat, resp: Response)
    requires RefusedAt(p, run, i, t, resp)
    ensures At(run[i], t) && Rejected(DispatchPc(run[i], run[i].threads[t], Receive))
  {
    hide Apply, ReadOn;
  }

  /** Once a thread has received the server's refusal of an opening frame, it makes
      no further establish attempt, dispatches nothing, and can only end with the
      authentication error. */
  lemma {:induction false} NoRetryAfterRejection(p: Params, run: seq<State>, i: nat, j: nat, t: nat, resp: Response)
    requires IsRun(p, run) && i < j < |run| && RefusedAt(p, run, i, t, resp)
    ensures At(run[i], t) && At(run[j], t) && Rejected(Pc(run[j], t))
    ensures run[j].threads[t].establishes == run[i].threads[t].establishes && run[j].threads[t].tried == run[i].threads[t].tried
  {
    hide IsRun, Enabled, Apply, Moved, Rejected, Takes, RefusedAt, DispatchPc;
    RefusalRejects(p, run, i, t, resp);
    var s, s' := run[j - 1], run[j];
    if j == i + 1 {
      RefusalMoves(p, run, i, t, resp);
    } else {
      NoRetryAfterRejection(p, run, i, j - 1, t, resp);
      var st := StepOf(p, run, j - 1);
      TookStep(p, run, j - 1, st);
      StepThreads(p, s, st, s');
      if !st.BeginCall? && !st.BeginClose? && st.t == t { RejectedMoves(p, s, st); }
    }
  }

  lemma RefusalMoves(p: Params, run: seq<State>, i: nat, t: nat, resp: Response)
    requires RefusedAt(p, run, i, t, resp)
    ensures i + 1 < |run| && At(run[i], t) && At(run[i + 1], t) && Rejected(Pc(run[i + 1], t))
    ensures run[i + 1].threads[t].establishes == run[i].threads[t].establishes && run[i + 1].threads[t].tried == run[i].threads[t].tried
  {
    hide Apply, Rejected, ReadOn;
    RefusalRejects(p, run, i, t, resp);
    StepThreads(p, run[i], Dispatch(t, Receive), run[i + 1]);
  }

  /** Ids of calls under way differ pairwise while no call outlives the window. */
  lemma OutstandingIdsDiffer(p: Params, s: State, t: nat, u: nat)
    requires Reachable(p, s) && Window(s) && At(s, t) && At(s, u) && t != u
    requires Outstanding(s, Pc(s, t)).Some? && Outstanding(s, Pc(s, u)).Some?
    ensures Ids.IdOf(Outstanding(s, Pc(s, t)).value) != Ids.IdOf(Outstanding(s, Pc(s, u)).value)
  {
    hide Reachable, WaitersOk, IdsOk;
    assert WaitersOk(s) && IdsOk(s) by { ReachableKeepsInvariant(p, s); }
    OutstandingAreDistinct(s, t, u);
  }

  /** The push id is never waited for. */
  lemma PushIsNeverPending(p: Params, s: State, c: nat)
    requires Reachable(p, s) && c < |s.conns|
    ensures 0xFFFF_FFFF !in s.conns[c].table.pending
  {
    hide Reachable, Ids.IdOf;
    assert WaitersOk(s) && IdsOk(s) by { ReachableKeepsInvariant(p, s); }
    forall id | id in s.conns[c].table.pending ensures id != PUSH_ID {
      assert PointsToIts(s, c, id);
      assert WaiterNumbered(s, s.waiters[s.conns[c].table.pending[id]]);
    }
  }

  // --- the resend loop ---

  /** A call dispatches at most once per connection, on ever newer connections;
      it makes at most two establish attempts, and dispatches at most three times
      when nobody else re-dials meanwhile. */
  lemma DispatchesAreBounded(p: Params, s: State, t: nat)
    requires Reachable(p, s) && At(s, t) && s.threads[t].kind == Caller
    ensures var th := s.threads[t];
      && (forall i: nat, j: nat | i < j < |th.tried| :: th.tried[i] != th.tried[j])
      && th.establishes <= 2
      && |th.tried| <= |s.installed|
      && th.base <= |s.installed| && |th.tried| <= |s.installed| - th.base + 1
      && (|s.installed| - th.base <= th.own ==> |th.tried| <= 3)
  {
    hide Reachable, InstalledOk;
    assert RetriesOk(s) && InstalledOk(s) by { hide RetriesOk; ReachableKeepsInvariant(p, s); }
    var th := s.threads[t];
    assert RetryOk(s, th);
    forall i: nat, j: nat | i < j < |th.tried| ensures th.tried[i] != th.tried[j] {
      assert Older(s, th.tried[i], th.tried[j]);
    }
    if |th.tried| > 0 {
      assert Placed(s, th.tried[0], th.base);
      OrdinalsClimb(s, th, |th.tried| - 1);
      InstalledIsOrdered(s, th.tried[|th.tried| - 1]);
    }
  }

  lemma {:induction false} OrdinalsClimb(s: State, th: Thread, i: nat)
    requires TriedPlaced(s, th) && i < |th.tried|
    ensures Placed(s, th.tried[0], th.base) && Placed(s, th.tried[i], th.base)
    ensures s.conns[th.tried[0]].ordinal.value + i <= s.conns[th.tried[i]].ordinal.value
  {
    assert Placed(s, th.tried[i], th.base);
    if i > 0 {
      OrdinalsClimb(s, th, i - 1);
      assert Older(s, th.tried[i - 1], th.tried[i]);
    }
  }

  /** N calls install at most 1 + 2N connections, the first by Connect. */
  lemma InstallsAreBounded(p: Params, s: State)
    requires Reachable(p, s)
    ensures |s.installed| <= 1 + 2 * s.begun && |s.conns| <= 1 + 2 * s.begun
  {
    hide Reachable;
    assert CountsOk(s) by { ReachableKeepsInvariant(p, s); }
  }

  /** Before a caller dispatches again, every connection it tried is dead: a write
      failure implies a dead connection, and no dead connection is tried twice. */
  lemma ResendsOnlyAfterDeath(p: Params, s: State, t: nat, i: nat)
    requires Reachable(p, s) && At(s, t) && i < |s.threads[t].tried|
    requires Pc(s, t) == LiveTop || Candidate(Pc(s, t)).Some?
    ensures Dead(s, s.threads[t].tried[i]) && s.threads[t].writes == 0
  {
    hide Reachable;
    assert RetriesOk(s) by { hide RetriesOk; ReachableKeepsInvariant(p, s); }
    assert RetryOk(s, s.threads[t]);
  }

  /** At most one frame of a caller is ever written, over all connections. */
  lemma WrittenAtMostOnce(p: Params, s: State, t: nat, c: nat, i: nat, d: nat, j: nat)
    requires Reachable(p, s) && CallerFrame(s, c, i, t) && CallerFrame(s, d, j, t)
    ensures c == d && i == j && At(s, t) && WrittenPc(Pc(s, t))
  {
    hide Reachable;
    assert OnceOk(s) && RetriesOk(s) by { hide OnceOk, RetriesOk; ReachableKeepsInvariant(p, s); }
    assert RetryOk(s, s.threads[t]);
  }

  // --- the opening ---

  /** One response was ever sent to the waiter of the k-th frame on c: its success
      with v, decoded from a body read on c. */
  ghost predicate AnsweredOnce(p: Params, run: seq<State>, n: nat, c: nat, k: nat, v: Value, w: nat) {
    && n < |run|
    && var s := run[n];
       && c < |s.conns| && k < |s.conns[c].written| && w < |s.waiters|
       && s.waiters[w].conn == c && s.waiters[w].owner == s.conns[c].opener
       && s.waiters[w].id == s.conns[c].written[k].req.id
       && s.waiters[w].sends == [Got(ResponseOk(s.waiters[w].id, v), c)]
       && ReadOn(p, run, n, c, w, ResponseOk(s.waiters[w].id, v))
  }

  ghost predicate FrameSucceeded(p: Params, run: seq<State>, n: nat, c: nat, k: nat) {
    exists v, w: nat :: AnsweredOnce(p, run, n, c, k, v, w)
  }

  function CommandOf(f: Written): Command { Command(f.req.command, f.req.args) }

  lemma FramesMean(p: Params)
    ensures Handshake.IsRefused(p.hs) ==> Frames(p) == [] && !Handshake.Opening(p.hs).Ok?
    ensures !Handshake.IsRefused(p.hs) ==> Handshake.OpensWith(p.hs, Frames(p)) && Handshake.Opening(p.hs).Ok?
  {
    hide Handshake.OpensWith, Handshake.Opening;
    Handshake.OpeningMeans(p.hs, Frames(p));
    assert Handshake.Opening(p.hs).Err? ==> Handshake.Opening(p.hs) == Err(AuthError) by { OpeningFails(p); }
  }

  lemma OpeningFails(p: Params)
    ensures Handshake.Opening(p.hs).Err? ==> Handshake.Opening(p.hs) == Err(AuthError)
  {
  }

  /** The frames on a connection are the opening of the configured style, in order and
      from its opener; no command of a caller is written before every one of those
      frames was answered with success by a body read on that connection, and after it
      only such commands are, each that of the call it was written for. */
  lemma OpeningComesFirst(p: Params, run: seq<State>, n: nat, c: nat, i: nat) returns (frames: seq<Command>)
    requires IsRun(p, run) && n < |run| && c < |run[n].conns| && i < |run[n].conns[c].written|
    ensures !Handshake.IsRefused(p.hs) && Handshake.OpensWith(p.hs, frames)
    ensures var x := run[n].conns[c];
      if i < |frames| then
        x.written[i].owner == x.opener && CommandOf(x.written[i]) == frames[i]
      else
        CarriesCall(p, run, x.written[i]) && forall k: nat | k < |frames| :: FrameSucceeded(p, run, n, c, k)
    ensures run[n].conns[c].written[i].mode.User? <==> i >= |frames|
  {
    hide IsRun, Frames, FrameSucceeded, CarriesCall, Handshake.OpensWith;
    var s := run[n];
    frames := Frames(p);
    assert OpeningsOk(p, s) by { hide OpeningsOk; RunKeepsInvariant(p, run, n); }
    assert WrittenOk(p, s, s.conns[c]);
    FramesMean(p);
    if i < Opened(p, s.conns[c]) {
      assert OpeningFrame(p, s.conns[c], i);
    } else {
      assert CallFrame(s, s.conns[c], i);
      CommandCarriesCall(p, run, n, s.conns[c].written[i]);
      var greeting := GreetedMeansAnswered(p, run, n, c);
    }
  }

  /** What the first frames on a connection are, one after the other. */
  predicate OpenedAs(hs: Handshake.UsableSettings, w: seq<Written>) {
    match hs.style
    case NoHandshake => true
    case AuthCommand =>
      hs.credentials.Some? ==>
        if hs.helloArgLess then
          && (|w| > 0 ==> Handshake.IsBareHello(CommandOf(w[0])))
          && (|w| > 1 ==> Handshake.IsAuth(CommandOf(w[1]), hs.credentials.value.secrets))
        else
          |w| > 0 ==> Handshake.IsAuth(CommandOf(w[0]), hs.credentials.value.secrets)
    case HelloMandatory =>
      |w| > 0 ==> !Handshake.IsRefused(hs) && Handshake.IsHelloMap(CommandOf(w[0]), hs)
  }

  /** HELLO without arguments and then AUTH with the secrets; AUTH alone; or HELLO with its map. */
  lemma ConnectionsOpenAs(p: Params, run: seq<State>, n: nat, c: nat)
    requires IsRun(p, run) && n < |run| && c < |run[n].conns|
    ensures OpenedAs(p.hs, run[n].conns[c].written)
  {
    hide IsRun, FrameSucceeded, CarriesCall, Handshake.IsAuth, Handshake.IsBareHello, Handshake.IsHelloMap;
    var w := run[n].conns[c].written;
    if |w| > 0 { var frames := OpeningComesFirst(p, run, n, c, 0); }
    if |w| > 1 { var frames := OpeningComesFirst(p, run, n, c, 1); }
  }

  /** A handshake is over only when the server has answered each of its frames with success. */
  lemma GreetedMeansAnswered(p: Params, run: seq<State>, n: nat, c: nat) returns (frames: seq<Command>)
    requires IsRun(p, run) && n < |run| && Greeted(run[n], c)
    ensures frames == Frames(p) && !Handshake.IsRefused(p.hs) && Handshake.OpensWith(p.hs, frames)
    ensures forall k: nat | k < |frames| :: FrameSucceeded(p, run, n, c, k)
  {
    hide IsRun, Frames, AnsweredOnce, Handshake.OpensWith, Handshake.Opening;
    var s := run[n];
    frames := Frames(p);
    FramesMean(p);
    assert GreetConn(p, s, c) by { hide GreetConn; RunKeepsInvariant(p, run, n); }
    assert SucceededUpTo(s, c, |frames|);
    forall k: nat | k < |frames| ensures FrameSucceeded(p, run, n, c, k) {
      assert Succeeded(s, c, k);
      var v :| AnsweredWith(s, c, k, v);
      var w := OnceOf(p, run, n, c, k, v);
    }
  }

  lemma OnceOf(p: Params, run: seq<State>, n: nat, c: nat, k: nat, v: Value) returns (w: nat)
    requires IsRun(p, run) && n < |run| && AnsweredWith(run[n], c, k, v)
    ensures AnsweredOnce(p, run, n, c, k, v, w)
  {
    hide IsRun, ReadOn;
    w :| AnswerTo(run[n], c, k, v, w);
    RunReaches(p, run, n);
    OnePlace(p, run[n], w);
    assert run[n].waiters[w].sends[0] in run[n].waiters[w].sends;
    WhatIsSent(p, run, n, w, run[n].waiters[w].sends[0]);
  }

  // --- connections ---

  /** Until Close, one connection at most is alive. */
  lemma OneAliveUntilClose(p: Params, s: State, c: nat, d: nat)
    requires Reachable(p, s) && !s.closed && Alive(s, c) && Alive(s, d)
    ensures c == d
  {
    hide Reachable, HoldsLock;
    assert SoleOk(s) && RolesOk(s) by { hide SoleOk, RolesOk; ReachableKeepsInvariant(p, s); }
    assert Kept(s, c) && Kept(s, d);
    NobodyShuts(s);
    if s.redialer.Some? { assert DeadOk(s, s.redialer.value); }
  }

  lemma NobodyShuts(s: State)
    requires RolesOk(s) && !s.closed
    ensures forall t: nat, c: nat :: !Shutting(s, t, c)
  {
    forall t: nat, c: nat ensures !Shutting(s, t, c) {
      if At(s, t) { assert RoleOk(s, t); }
    }
  }

  /** The handshake info that the server's answers on c give: nothing for an empty
      opening, and otherwise what the answer to its last frame says. */
  ghost predicate LearnedFrom(p: Params, run: seq<State>, n: nat, c: nat, info: Handshake.Info) {
    && !Handshake.IsRefused(p.hs)
    && exists frames :: Handshake.OpensWith(p.hs, frames) && FrameGave(p, run, n, c, |frames|, info)
  }

  ghost predicate FrameGave(p: Params, run: seq<State>, n: nat, c: nat, count: nat, info: Handshake.Info) {
    if count == 0 then info == Handshake.Info(false, [])
    else LastFrameGave(p, run, n, c, count - 1, info)
  }

  ghost predicate LastFrameGave(p: Params, run: seq<State>, n: nat, c: nat, k: nat, info: Handshake.Info) {
    exists v, w: nat :: AnsweredOnce(p, run, n, c, k, v, w) && Handshake.Learns(p.hs, Some(v), info)
  }

  /** While nobody re-dials, the stored handshake info is the one learned from the
      server on the current connection, whose handshake succeeded and which was
      installed last. */
  lemma InfoIsOfCurrent(p: Params, run: seq<State>, n: nat)
    requires IsRun(p, run) && n < |run| && run[n].redialer == None && run[n].current.Some?
    ensures var s := run[n];
      && Greeted(s, s.current.value) && LearnedFrom(p, run, n, s.current.value, s.info)
      && |s.installed| > 0 && s.current.value == s.installed[|s.installed| - 1]
  {
    hide IsRun, LearnedFrom, GreetConn;
    var s := run[n];
    assert InfoOk(s) && InstalledOk(s) by { hide InfoOk, InstalledOk; RunKeepsInvariant(p, run, n); }
    CurrentIsGreeted(s);
    assert GreetConn(p, s, s.current.value) by { RunKeepsInvariant(p, run, n); }
    InfoIsLearned(p, run, n, s.current.value);
  }

  lemma InfoIsLearned(p: Params, run: seq<State>, n: nat, c: nat)
    requires IsRun(p, run) && n < |run| && c < |run[n].conns| && GreetConn(p, run[n], c) && run[n].conns[c].info.Some?
    requires run[n].conns[c].greeted
    ensures LearnedFrom(p, run, n, c, run[n].conns[c].info.value)
  {
    hide IsRun, Frames, Handshake.Learned, Handshake.Learns, Handshake.OpensWith, AnsweredOnce, AnsweredWith, SucceededUpTo;
    var info := run[n].conns[c].info.value;
    var last :| LastAnswer(run[n], c, |Frames(p)|, last) && info == Handshake.Learned(p.hs, last);
    FramesMean(p);
    Handshake.LearnedIsLearnt(p.hs, last);
    if |Frames(p)| > 0 {
      var w := OnceOf(p, run, n, c, |Frames(p)| - 1, last.value);
    } else {
      assert info == Handshake.Info(false, []) by { NothingLearned(p.hs, info); }
    }
    assert FrameGave(p, run, n, c, |Frames(p)|, info);
  }

  lemma NothingLearned(hs: Handshake.UsableSettings, info: Handshake.Info)
    requires Handshake.Learns(hs, None, info)
    ensures info == Handshake.Info(false, [])
  {
  }

  // --- the gate ---

  /** The permits out are those of the callers that took one and have not given it back. */
  lemma PermitsAreHeld(p: Params, s: State)
    requires Reachable(p, s)
    ensures s.permits == Total(Permit, s.threads) <= if p.maxInFlight < 1 then 1 else p.maxInFlight
  {
    hide Reachable;
    assert CountsOk(s) && s.permits <= Bound(p) by { hide CountsOk; ReachableKeepsInvariant(p, s); }
  }

  lemma ReleaserHoldsPermit(th: Thread)
    requires Suits(th.kind, th.pc) && (th.pc.Release? || th.pc.AcqReturn?)
    ensures Permit(th) == 1
  {
  }

  /** Giving a permit back never blocks. */
  lemma ReleaseNeverBlocks(p: Params, s: State, t: nat)
    requires Reachable(p, s) && At(s, t)
    ensures Pc(s, t).Release? ==> GateEnabled(p, s, Pc(s, t), ReleasePermit)
    ensures Pc(s, t).AcqReturn? ==> GateEnabled(p, s, Pc(s, t), AcqGiveBack)
  {
    hide Reachable, Suits, HoldsLock, Total, Permit;
    assert CountsOk(s) && RolesOk(s) by { hide CountsOk, RolesOk; ReachableKeepsInvariant(p, s); }
    assert RoleOk(s, t);
    TotalAtLeast(Permit, s.threads, t);
    if Pc(s, t).Release? || Pc(s, t).AcqReturn? { ReleaserHoldsPermit(s.threads[t]); }
  }

  /** The pending entries of all connections together. */
  ghost function Entries(s: State): set<(nat, u32)> {
    set c: nat, id | 0 <= c < |s.conns| && id in s.conns[c].table.pending :: (c, id)
  }

  ghost function Owners(s: State): set<nat> {
    set t: nat | t < |s.threads| && Slot(Pc(s, t)).Some?
  }

  lemma {:induction false} Injection<A, B>(a: set<A>, b: set<B>, f: A -> B)
    requires forall x | x in a :: f(x) in b
    requires forall x, y | x in a && y in a && f(x) == f(y) :: x == y
    ensures |a| <= |b|
    decreases a
  {
    if a != {} {
      var x :| x in a;
      Injection(a - {x}, b - {f(x)}, f);
    }
  }

  function OwnerOf(s: State, e: (nat, u32)): nat {
    if e.0 < |s.conns| && e.1 in s.conns[e.0].table.pending && s.conns[e.0].table.pending[e.1] < |s.waiters|
    then s.waiters[s.conns[e.0].table.pending[e.1]].owner else 0
  }

  lemma EntriesHaveOwners(s: State)
    requires WaitersOk(s)
    ensures |Entries(s)| <= |Owners(s)|
  {
    hide Slot;
    var f := e => OwnerOf(s, e);
    forall e | e in Entries(s) ensures f(e) in Owners(s) { EntryHasOwner(s, e.0, e.1); }
    forall e, g | e in Entries(s) && g in Entries(s) && f(e) == f(g) ensures e == g {
      EntryHasOwner(s, e.0, e.1);
      EntryHasOwner(s, g.0, g.1);
    }
    Injection(Entries(s), Owners(s), f);
  }

  lemma EntryHasOwner(s: State, c: nat, id: u32)
    requires WaitersOk(s) && c < |s.conns| && id in s.conns[c].table.pending
    ensures var w, t := s.conns[c].table.pending[id], OwnerOf(s, (c, id));
      w < |s.waiters| && s.waiters[w].conn == c && s.waiters[w].id == id && At(s, t) && Slot(Pc(s, t)) == Some(w)
  {
    assert PointsToIts(s, c, id);
    assert IsRegistered(s, s.conns[c].table.pending[id]);
  }

  /** In flight at once, over all connections and handshakes included: at most the gate's bound. */
  lemma PendingIsBounded(p: Params, s: State)
    requires Reachable(p, s)
    ensures |Entries(s)| <= if p.maxInFlight < 1 then 1 else p.maxInFlight
  {
    hide Reachable, HoldsLock;
    assert WaitersOk(s) && CountsOk(s) && RolesOk(s) && s.permits <= Bound(p) by {
      hide WaitersOk, CountsOk, RolesOk;
      ReachableKeepsInvariant(p, s);
    }
    EntriesHaveOwners(s);
    OwnersHavePermits(s);
  }

  lemma OwnersHavePermits(s: State)
    requires RolesOk(s)
    ensures |Owners(s)| <= Total(Permit, s.threads) || |Owners(s)| <= 1
  {
    if 0 in Owners(s) {
      forall t | t in Owners(s) ensures t == 0 { assert RoleOk(s, t) && RoleOk(s, 0); }
      assert Owners(s) == {0};
    } else {
      forall t | t in Owners(s) ensures Permit(s.threads[t]) >= 1 { assert RoleOk(s, t); }
      TotalBoundsSet(Permit, s.threads, Owners(s));
    }
  }

  // --- accounting ---

  /** Every decoded response that is no push was sent to a waiter, counted as a drop,
      or is still in the hands of its reader: sent on next, or dropped next. */
  lemma ResponsesAreAccounted(p: Params, s: State)
    requires Reachable(p, s)
    ensures s.decoded == Responses(s.waiters) + s.drops + Total(Bringing, s.threads) + Total(Undecided, s.threads)
  {
    hide Reachable;
    assert CountsOk(s) && AccountsOk(s) by { hide CountsOk, AccountsOk; ReachableKeepsInvariant(p, s); }
  }

  /** A call begun once some Close has returned fails closed at once. */
  lemma CallAfterCloseFails(p: Params, s: State, u: nat, cmd: Command)
    requires Reachable(p, s) && At(s, u) && s.threads[u].kind == Closer && Pc(s, u).Done?
    requires Enabled(p, s, BeginCall(cmd))
    ensures var s' := Apply(p, s, BeginCall(cmd));
      && |s'.threads| == |s.threads| + 1 && s'.threads[..|s.threads|] == s.threads
      && (s'.conns, s'.waiters, s'.allocs, s'.permits) == (s.conns, s.waiters, s.allocs, s.permits)
    ensures var th := Apply(p, s, BeginCall(cmd)).threads[|s.threads|];
      th.kind == Caller && th.cmd == cmd && th.late && th.pc == Done(Err(ConnectionClosed))
  {
    hide Reachable;
    assert RolesOk(s) by { hide RolesOk; ReachableKeepsInvariant(p, s); }
    assert RoleOk(s, u);
  }

  /** Such a call never touches a connection. */
  lemma LateCallsTouchNothing(p: Params, s: State, t: nat)
    requires Reachable(p, s) && At(s, t) && s.threads[t].late
    ensures Pc(s, t) == Done(Err(ConnectionClosed)) && s.threads[t].tried == [] && s.threads[t].writes == 0
    ensures forall c: nat, i: nat :: !CallerFrame(s, c, i, t)
  {
    hide Reachable;
    assert RolesOk(s) && OnceOk(s) by { hide RolesOk, OnceOk; ReachableKeepsInvariant(p, s); }
    assert RoleOk(s, t);
  }
}
