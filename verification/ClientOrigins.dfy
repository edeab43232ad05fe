/**
 Where a response comes from: everything a reader delivers, along any run, is
 what a body it read on that connection decodes to, for the waiter that stood in
 the table under its id; and one body reaches one waiter at most.
 */
module ClientOrigins {
  import opened Wrappers
  import opened MsgPack
  import opened Values
  import opened Client
  import opened ClientWaiters
  import opened ClientHistory
  import opened ClientControl
  import opened ClientInvariant
  import opened ClientRuns
  import Codec
  import Handshake

  /** At step i reader r reads a body on c that decodes to resp, and takes waiter w out of the table for it. */
  ghost predicate ReadAt(p: Params, run: seq<State>, i: nat, r: nat, body: Octets, c: nat, w: nat, resp: Response) {
    && Takes(p, run, i, Delivery(r, ReadFrame(body))) && Pc(run[i], r) == Reading(c)
    && Codec.DecodeResponseBody(p.floats, body) == Some(resp) && resp.id != PUSH_ID
    && c < |run[i].conns| && resp.id in run[i].conns[c].table.pending && run[i].conns[c].table.pending[resp.id] == w
    && At(run[i + 1], r) && Pc(run[i + 1], r) == Delivering(c, w, resp)
  }

  /** Within the first n steps, resp was read on c for waiter w. */
  ghost predicate ReadOn(p: Params, run: seq<State>, n: nat, c: nat, w: nat, resp: Response) {
    exists i: nat, r: nat, body :: i < n && ReadAt(p, run, i, r, body, c, w, resp)
  }

  /** At step i reader r reads a response on c under an id nobody waits for. */
  ghost predicate UnmatchedAt(p: Params, run: seq<State>, i: nat, r: nat, body: Octets, c: nat) {
    && Takes(p, run, i, Delivery(r, ReadFrame(body))) && Pc(run[i], r) == Reading(c)
    && var resp := Codec.DecodeResponseBody(p.floats, body);
       resp.Some? && resp.value.id != PUSH_ID
       && (c < |run[i].conns| ==> resp.value.id !in run[i].conns[c].table.pending)
  }

  ghost predicate ReadUnmatched(p: Params, run: seq<State>, n: nat, c: nat) {
    exists i: nat, r: nat, body :: i < n && UnmatchedAt(p, run, i, r, body, c)
  }

  lemma ReadOnStays(p: Params, run: seq<State>, m: nat, n: nat, c: nat, w: nat, resp: Response)
    requires ReadOn(p, run, m, c, w, resp) && m <= n
    ensures ReadOn(p, run, n, c, w, resp)
  {
    hide ReadAt;
    var i: nat, r: nat, body :| i < m && ReadAt(p, run, i, r, body, c, w, resp);
  }

  lemma UnmatchedStays(p: Params, run: seq<State>, m: nat, n: nat, c: nat)
    requires ReadUnmatched(p, run, m, c) && m <= n
    ensures ReadUnmatched(p, run, n, c)
  {
    hide UnmatchedAt;
    var i: nat, r: nat, body :| i < m && UnmatchedAt(p, run, i, r, body, c);
  }

  // --- what a reader holds ---

  predicate Carrying(pc: PC) { pc.Delivering? || pc.Dropping? }

  /** A reader gets something to deliver or to drop from a body it reads. */
  lemma CarriersRead(p: Params, s: State, st: Step)
    requires Enabled(p, s, st) && !st.BeginCall? && !st.BeginClose? && Carrying(Moved(p, s, st).pc)
    ensures st.Delivery? && st.v.ReadFrame? && Pc(s, st.t) == Reading(Moved(p, s, st).pc.c)
    ensures Decision(p, s, Moved(p, s, st).pc.c, st.v.body)
      == (match Moved(p, s, st).pc case Delivering(_, w, resp) => Match(w, resp) case _ => Unmatched)
  {
    hide OnBody, Alive, Received, Frames, Handshake.Opening, Handshake.Learned;
  }

  /** What the decision on a body says about the body. */
  lemma DecisionMeans(p: Params, s: State, c: nat, body: Octets)
    ensures match Decision(p, s, c, body)
      case Match(w, resp) =>
        Codec.DecodeResponseBody(p.floats, body) == Some(resp) && resp.id != PUSH_ID && c < |s.conns|
        && resp.id in s.conns[c].table.pending && s.conns[c].table.pending[resp.id] == w
      case Unmatched =>
        var resp := Codec.DecodeResponseBody(p.floats, body);
        resp.Some? && resp.value.id != PUSH_ID
        && (c < |s.conns| ==> resp.value.id !in s.conns[c].table.pending)
      case _ => true
  {
    hide Codec.DecodeResponseBody;
  }

  /** What a reader at pc carries was read within the first n steps. */
  ghost predicate WasRead(p: Params, run: seq<State>, n: nat, pc: PC) {
    match pc
    case Delivering(c, w, resp) => ReadOn(p, run, n, c, w, resp)
    case Dropping(c) => ReadUnmatched(p, run, n, c)
    case _ => true
  }

  lemma WasReadStays(p: Params, run: seq<State>, n: nat, pc: PC)
    requires WasRead(p, run, n, pc)
    ensures WasRead(p, run, n + 1, pc)
  {
    hide ReadOn, ReadUnmatched;
    match pc {
      case Delivering(c, w, resp) => ReadOnStays(p, run, n, n + 1, c, w, resp);
      case Dropping(c) => UnmatchedStays(p, run, n, n + 1, c);
      case _ =>
    }
  }

  lemma {:induction false} CarriedWasRead(p: Params, run: seq<State>, n: nat, r: nat)
    requires IsRun(p, run) && n < |run| && At(run[n], r)
    ensures WasRead(p, run, n, Pc(run[n], r))
  {
    hide Enabled, Apply, IsRun, Moved, WasRead, Takes;
    if n == 0 {
      StartCarriesNothing(p, run, r);
    } else {
      var st := StepOf(p, run, n - 1);
      TookStep(p, run, n - 1, st);
      StepThreads(p, run[n - 1], st, run[n]);
      if r < |run[n - 1].threads| {
        if !st.BeginCall? && !st.BeginClose? && st.t == r {
          ReadJustNow(p, run, n - 1, st);
        } else {
          CarriedWasRead(p, run, n - 1, r);
          WasReadStays(p, run, n - 1, Pc(run[n], r));
        }
      } else {
        NewCarriesNothing(p, run, n, run[n - 1], st, Pc(run[n], r));
      }
    }
  }

  lemma NewCarriesNothing(p: Params, run: seq<State>, n: nat, s: State, st: Step, pc: PC)
    requires pc == NewReader(|s.conns|).pc || pc == NEW_CLOSER.pc || (st.BeginCall? && pc == NewCaller(s, st.cmd).pc)
    ensures WasRead(p, run, n, pc)
  {
  }

  lemma StartCarriesNothing(p: Params, run: seq<State>, r: nat)
    requires IsRun(p, run) && At(run[0], r)
    ensures WasRead(p, run, 0, Pc(run[0], r))
  {
  }

  lemma ReadJustNow(p: Params, run: seq<State>, i: nat, st: Step)
    requires Takes(p, run, i, st) && !st.BeginCall? && !st.BeginClose? && At(run[i + 1], st.t)
    requires run[i + 1].threads[st.t] == Moved(p, run[i], st)
    ensures WasRead(p, run, i + 1, Pc(run[i + 1], st.t))
  {
    hide Apply, Moved, Decision, Codec.DecodeResponseBody;
    if Carrying(Pc(run[i + 1], st.t)) {
      var pc := Pc(run[i + 1], st.t);
      CarriersRead(p, run[i], st);
      DecisionMeans(p, run[i], pc.c, st.v.body);
      if pc.Delivering? {
        assert ReadAt(p, run, i, st.t, st.v.body, pc.c, pc.w, pc.resp);
      } else {
        assert UnmatchedAt(p, run, i, st.t, st.v.body, pc.c);
      }
    }
  }

  // --- what a waiter was sent ---

  /** What a step sends to waiter w. */
  function Sends(s: State, st: Step, w: nat): seq<Message> {
    if st.Delivery? && At(s, st.t) then Posts(Pc(s, st.t), st.v, w) else []
  }

  lemma SendsMove(p: Params, s: State, st: Step, s': State, w: nat)
    requires Enabled(p, s, st) && s' == Apply(p, s, st) && w < |s'.waiters|
    ensures s'.waiters[w].sends == if w < |s.waiters| then s.waiters[w].sends + Sends(s, st, w) else []
  {
    hide ApplyGate, ApplyLive, ApplyDispatch, ApplyDelivery, LiveEnabled, DispatchEnabled, DeliveryEnabled, Posts;
    match st {
      case BeginCall(_) =>
      case BeginClose =>
      case Gate(t, g) => GateFields(p, s, t, g);
      case Live(t, l) => LiveFields(p, s, t, l);
      case Dispatch(t, d) => DispatchWaiters(p, s, t, d);
      case Delivery(t, v) => DeliveryWaiters(p, s, t, v);
    }
  }

  /** Every response sent to a waiter was read on the connection it names. */
  lemma {:induction false} SentWasRead(p: Params, run: seq<State>, n: nat, w: nat, resp: Response, c: nat)
    requires IsRun(p, run) && n < |run| && w < |run[n].waiters| && Got(resp, c) in run[n].waiters[w].sends
    ensures ReadOn(p, run, n, c, w, resp)
  {
    hide Enabled, Apply, IsRun, ReadAt;
    if n == 0 {
      NothingSentAtStart(p, run);
    } else {
      var st := StepOf(p, run, n - 1);
      SendsMove(p, run[n - 1], st, run[n], w);
      if w < |run[n - 1].waiters| && Got(resp, c) in run[n - 1].waiters[w].sends {
        SentWasRead(p, run, n - 1, w, resp, c);
      } else {
        assert Got(resp, c) in Sends(run[n - 1], st, w);
        CarriedWasRead(p, run, n - 1, st.t);
      }
      ReadOnStays(p, run, n - 1, n, c, w, resp);
    }
  }

  lemma NothingSentAtStart(p: Params, run: seq<State>)
    requires IsRun(p, run)
    ensures run[0].waiters == []
  {
  }

  // --- and the other way round ---

  lemma DelivererMoves(p: Params, s: State, st: Step)
    requires Enabled(p, s, st) && !st.BeginCall? && !st.BeginClose? && Pc(s, st.t).Delivering?
    ensures st.Delivery? && st.v.DeliverResponse? && Sends(s, st, Pc(s, st.t).w) == [Got(Pc(s, st.t).resp, Pc(s, st.t).c)]
  {
  }

  /** Reader r is about to send resp to w, or w was sent it. */
  ghost predicate Reaches(s: State, r: nat, c: nat, w: nat, resp: Response) {
    At(s, r) && w < |s.waiters| && (Pc(s, r) == Delivering(c, w, resp) || Got(resp, c) in s.waiters[w].sends)
  }

  /** What was read for a waiter is on its way to it, or was sent to it. */
  lemma {:induction false} ReadIsDelivered(p: Params, run: seq<State>, i: nat, n: nat,
                                           r: nat, body: Octets, c: nat, w: nat, resp: Response)
    requires IsRun(p, run) && i < n < |run| && ReadAt(p, run, i, r, body, c, w, resp)
    ensures Reaches(run[n], r, c, w, resp)
  {
    hide Enabled, Apply, IsRun, Takes, Reaches, ReadAt;
    if n == i + 1 {
      ReadReaches(p, run, i, r, body, c, w, resp);
    } else {
      ReadIsDelivered(p, run, i, n - 1, r, body, c, w, resp);
      var st := StepOf(p, run, n - 1);
      TookStep(p, run, n - 1, st);
      ReachesStays(p, run[n - 1], st, run[n], r, c, w, resp);
    }
  }

  lemma ReadReaches(p: Params, run: seq<State>, i: nat, r: nat, body: Octets, c: nat, w: nat, resp: Response)
    requires IsRun(p, run) && ReadAt(p, run, i, r, body, c, w, resp)
    ensures i + 1 < |run| && Reaches(run[i + 1], r, c, w, resp)
  {
    hide Apply, Enabled, IsRun, Codec.DecodeResponseBody;
    WaiterIsThere(p, run, i + 1, r);
  }

  lemma ReachesStays(p: Params, s: State, st: Step, s': State, r: nat, c: nat, w: nat, resp: Response)
    requires Enabled(p, s, st) && s' == Apply(p, s, st) && Reaches(s, r, c, w, resp)
    ensures Reaches(s', r, c, w, resp)
  {
    hide Enabled, Apply, Moved, Grows, Sends;
    StepThreads(p, s, st, s');
    StepGrows(p, s, st, s');
    WaitersStay(s, s');
    SendsMove(p, s, st, s', w);
    if Pc(s, r) == Delivering(c, w, resp) && !st.BeginCall? && !st.BeginClose? && st.t == r { DelivererMoves(p, s, st); }
  }

  lemma WaiterIsThere(p: Params, run: seq<State>, n: nat, r: nat)
    requires IsRun(p, run) && n < |run| && At(run[n], r) && Pc(run[n], r).Delivering?
    ensures Pc(run[n], r).w < |run[n].waiters|
  {
    hide IsRun;
    assert WaitersOk(run[n]) by { hide WaitersOk; RunKeepsInvariant(p, run, n); }
    assert ThreadOk(run[n], r) && Pc(run[n], r).w in Carried(Pc(run[n], r));
  }

  lemma WaitersStay(s: State, s': State)
    requires Grows(s, s')
    ensures |s.waiters| <= |s'.waiters|
  {
  }

  // --- one body, one waiter ---

  /** A step that reads a body takes out one waiter at most. */
  lemma OneWaiterPerBody(p: Params, run: seq<State>, i: nat,
                         r: nat, body: Octets, c: nat, w: nat, resp: Response,
                         u: nat, other: Octets, d: nat, x: nat, reply: Response)
    requires ReadAt(p, run, i, r, body, c, w, resp) && ReadAt(p, run, i, u, other, d, x, reply)
    ensures (r, c, w, resp) == (u, d, x, reply)
  {
    hide Apply, Moved, Codec.DecodeResponseBody;
    StepThreads(p, run[i], Delivery(r, ReadFrame(body)), run[i + 1]);
  }

  /** Different waiters were answered by different reads. */
  lemma AnswersAreDistinct(p: Params, run: seq<State>, n: nat, w: nat, x: nat, resp: Response, reply: Response, c: nat, d: nat)
    returns (i: nat, j: nat, body: Octets, other: Octets, r: nat, u: nat)
    requires IsRun(p, run) && n < |run| && w < |run[n].waiters| && x < |run[n].waiters| && w != x
    requires Got(resp, c) in run[n].waiters[w].sends && Got(reply, d) in run[n].waiters[x].sends
    ensures i != j && i < n && j < n
    ensures ReadAt(p, run, i, r, body, c, w, resp) && ReadAt(p, run, j, u, other, d, x, reply)
  {
    hide IsRun, ReadAt;
    SentWasRead(p, run, n, w, resp, c);
    SentWasRead(p, run, n, x, reply, d);
    i, r, body :| i < n && ReadAt(p, run, i, r, body, c, w, resp);
    j, u, other :| j < n && ReadAt(p, run, j, u, other, d, x, reply);
    if i == j { OneWaiterPerBody(p, run, i, r, body, c, w, resp, u, other, d, x, reply); }
  }
}
