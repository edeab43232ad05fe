/** What holds along whole runs of the client. */
module ClientRuns {
  import opened Wrappers
  import opened ClientTypes
  import opened Client
  import opened ClientWaiters
  import opened ClientHistory
  import opened ClientControl
  import opened ClientErrors
  import opened ClientIds
  import opened ClientRoles
  import opened ClientLife
  import opened ClientInvariant
  import Handshake

  // --- history ---

  lemma GrowsOn(a: State, b: State, c: State)
    requires Grows(a, b) && Grows(b, c)
    ensures Grows(a, c)
  {
    forall i: nat | i < |a.conns| ensures ConnGrows(a.conns[i], c.conns[i]) {
      assert ConnGrows(a.conns[i], b.conns[i]) && ConnGrows(b.conns[i], c.conns[i]);
    }
    forall w: nat | w < |a.waiters| ensures WaiterGrows(a.waiters[w], c.waiters[w]) {
      assert WaiterGrows(a.waiters[w], b.waiters[w]) && WaiterGrows(b.waiters[w], c.waiters[w]);
    }
  }

  /** A run goes on with any step that is enabled. */
  lemma Extend(p: Params, run: seq<State>, st: Step) returns (longer: seq<State>)
    requires IsRun(p, run) && Enabled(p, run[|run| - 1], st)
    ensures run <= longer && |longer| > 0 && IsRun(p, longer) && longer[|longer| - 1] == Apply(p, run[|run| - 1], st)
  {
    hide Apply, Enabled, Init;
    var last := run[|run| - 1];
    longer := run + [Apply(p, last, st)];
    forall i: nat | i < |longer| - 1 ensures Next(p, longer[i], longer[i + 1]) {
      if i < |run| - 1 { assert Next(p, run[i], run[i + 1]); }
    }
  }

  /** The i-th step of the run is st. */
  ghost predicate Takes(p: Params, run: seq<State>, i: nat, st: Step) {
    i + 1 < |run| && Enabled(p, run[i], st) && Apply(p, run[i], st) == run[i + 1]
  }

  lemma TookStep(p: Params, run: seq<State>, i: nat, st: Step)
    requires Takes(p, run, i, st)
    ensures Enabled(p, run[i], st) && run[i + 1] == Apply(p, run[i], st)
  {
  }

  /** Each state of a run can be reached. */
  lemma RunReaches(p: Params, run: seq<State>, i: nat)
    requires IsRun(p, run) && i < |run|
    ensures Reachable(p, run[i])
  {
    hide Init, Next;
    var prefix := run[..i + 1];
    assert IsRun(p, prefix) && prefix[|prefix| - 1] == run[i];
  }

  lemma StepOf(p: Params, run: seq<State>, i: nat) returns (st: Step)
    requires IsRun(p, run) && i + 1 < |run|
    ensures Takes(p, run, i, st)
  {
    hide Enabled, Apply, Init;
    assert Next(p, run[i], run[i + 1]);
    st :| Enabled(p, run[i], st) && Apply(p, run[i], st) == run[i + 1];
  }

  lemma {:induction false} RunGrows(p: Params, run: seq<State>, i: nat, j: nat)
    requires IsRun(p, run) && i <= j < |run|
    ensures Grows(run[i], run[j])
  {
    hide Enabled, Apply, IsRun;
    if i < j {
      RunGrows(p, run, i, j - 1);
      var st := StepOf(p, run, j - 1);
      StepGrows(p, run[j - 1], st, run[j]);
      hide Grows;
      GrowsOn(run[i], run[j - 1], run[j]);
    } else {
      forall w: nat | w < |run[i].waiters| ensures WaiterGrows(run[i].waiters[w], run[i].waiters[w]) { }
    }
  }

  /** A lost connection stays lost, its first error stands, and what was written on
      it or sent to a waiter is never taken back. */
  lemma NothingIsTakenBack(p: Params, run: seq<State>, i: nat, j: nat)
    requires IsRun(p, run) && i <= j < |run|
    ensures forall c: nat | c < |run[i].conns| :: c < |run[j].conns| && ConnGrows(run[i].conns[c], run[j].conns[c])
    ensures forall w: nat | w < |run[i].waiters| :: w < |run[j].waiters| && WaiterGrows(run[i].waiters[w], run[j].waiters[w])
  {
    hide IsRun;
    RunGrows(p, run, i, j);
  }

  /** A finished thread takes no further step. */
  lemma {:induction false} DoneStays(p: Params, run: seq<State>, i: nat, j: nat, t: nat)
    requires IsRun(p, run) && i <= j < |run| && At(run[i], t) && Pc(run[i], t).Done?
    ensures At(run[j], t) && run[j].threads[t] == run[i].threads[t]
  {
    hide Apply, IsRun;
    if i < j {
      DoneStays(p, run, i, j - 1, t);
      var st := StepOf(p, run, j - 1);
      StepGrows(p, run[j - 1], st, run[j]);
      DoneIsStuck(p, run[j - 1], st, t);
    }
  }

  lemma DoneIsStuck(p: Params, s: State, st: Step, t: nat)
    requires Enabled(p, s, st) && At(s, t) && Pc(s, t).Done?
    ensures Mover(s, st) != t
  {
  }

  /** A call that bails out of a re-dial makes no further attempt and ends with that error. */
  lemma {:induction false} BailEndsTheCall(p: Params, run: seq<State>, i: nat, j: nat, t: nat)
    requires IsRun(p, run) && i <= j < |run| && At(run[i], t) && run[i].threads[t].kind == Caller
    requires Pc(run[i], t).Unlock? && Pc(run[i], t).ending.Bail?
    ensures At(run[j], t) && run[j].threads[t].establishes == run[i].threads[t].establishes
    ensures var e, pc := Pc(run[i], t).ending.why, Pc(run[j], t);
      run[j].threads[t].kind == Caller && (pc == Unlock(Bail(e)) || pc == Release(Err(e)) || pc == Done(Err(e)))
  {
    hide Apply, IsRun, Enabled, Moved;
    if i < j {
      BailEndsTheCall(p, run, i, j - 1, t);
      var st := StepOf(p, run, j - 1);
      StepThreads(p, run[j - 1], st, run[j]);
      if !st.BeginCall? && !st.BeginClose? && st.t == t { BailMoves(p, run[j - 1], st, Pc(run[i], t).ending.why); }
    }
  }

  lemma BailMoves(p: Params, s: State, st: Step, e: Err)
    requires Enabled(p, s, st) && !st.BeginCall? && !st.BeginClose? && s.threads[st.t].kind == Caller
    requires Pc(s, st.t) == Unlock(Bail(e)) || Pc(s, st.t) == Release(Err(e)) || Pc(s, st.t) == Done(Err(e))
    ensures var pc := Moved(p, s, st).pc;
      Moved(p, s, st).kind == Caller && Moved(p, s, st).establishes == s.threads[st.t].establishes
      && (pc == Release(Err(e)) || pc == Done(Err(e)))
  {
  }

  // --- no waiter is lost ---

  /** Along the run no call outlives its window of 2^32-1 allocations. */
  ghost predicate Windowed(run: seq<State>) {
    forall i: nat | i < |run| :: Window(run[i])
  }

  lemma {:induction false} NobodyIsForgotten(p: Params, run: seq<State>, i: nat)
    requires IsRun(p, run) && Windowed(run) && i < |run|
    ensures NoneForgotten(run[i])
  {
    hide Enabled, Apply, WaitersOk, IdsOk, Window;
    if i == 0 {
      assert NoneForgotten(Init());
    } else {
      hide NoneForgotten;
      NobodyIsForgotten(p, run, i - 1);
      assert WaitersOk(run[i - 1]) && IdsOk(run[i - 1]) by { RunKeepsInvariant(p, run, i - 1); }
      var st := StepOf(p, run, i - 1);
      assert Window(run[i - 1]);
      NoneForgottenStep(p, run[i - 1], st, run[i]);
    }
  }

  /** Nobody holds a waiter of connection c that it has yet to send to. */
  ghost predicate Settled(s: State, c: nat) {
    forall t: nat, w: nat | t < |s.threads| && w in Carried(Pc(s, t)) && w < |s.waiters| :: s.waiters[w].conn != c
  }

  /** Once a dead connection has settled, every caller still waiting on it has its
      result: the error of the first poison, or the response with its own id. */
  lemma DeathReachesEveryone(p: Params, run: seq<State>, i: nat, c: nat, t: nat)
    requires IsRun(p, run) && Windowed(run) && i < |run|
    requires c < |run[i].conns| && !run[i].conns[c].table.alive && Settled(run[i], c)
    requires At(run[i], t) && Slot(Pc(run[i], t)).Some? && Pc(run[i], t).c == c
    ensures var s, w := run[i], Pc(run[i], t).w;
      && w < |s.waiters| && s.waiters[w].owner == t && s.waiters[w].chan.Some?
      && match s.waiters[w].chan.value
         case Failed(e) => s.conns[c].error == Some(e)
         case Got(resp, from) => from == c && resp.id == s.waiters[w].id
  {
    hide IsRun, Windowed, NoneForgotten;
    var s := run[i];
    NobodyIsForgotten(p, run, i);
    assert WaitersOk(s) && LinksOk(s) && AllSentOk(s) by { hide WaitersOk; RunKeepsInvariant(p, run, i); }
    WaitingHasResult(s, c, t);
  }

  lemma WaitingHasResult(s: State, c: nat, t: nat)
    requires WaitersOk(s) && LinksOk(s) && AllSentOk(s) && NoneForgotten(s)
    requires c < |s.conns| && !s.conns[c].table.alive && Settled(s, c)
    requires At(s, t) && Slot(Pc(s, t)).Some? && Pc(s, t).c == c
    ensures var w := Pc(s, t).w;
      && w < |s.waiters| && s.waiters[w].owner == t && s.waiters[w].chan.Some?
      && match s.waiters[w].chan.value
         case Failed(e) => s.conns[c].error == Some(e)
         case Got(resp, from) => from == c && resp.id == s.waiters[w].id
  {
    var w := Pc(s, t).w;
    assert ThreadOk(s, t) && NotForgotten(s, t) && ChannelOk(s, w) && LinkOk(s.conns[c]) && SentOk(s, s.waiters[w]);
    assert s.waiters[w].place == InTable ==> IsRegistered(s, w);
    assert s.waiters[w].place.Held? ==> IsCarried(s, w, s.waiters[w].place.holder);
    assert s.waiters[w].place == Sent;
    assert s.waiters[w].chan.value in s.waiters[w].sends;
  }

  // --- Close ---

  /** Past the second look at the closed flag in liveConn, under the re-dial lock. */
  predicate PastRecheck(pc: PC) { pc.ReRead? || pc.ReCheckAlive? || FoundDead(pc) }

  /** Closed, and nobody is past the recheck. */
  ghost predicate Quiet(s: State) {
    s.closed && forall t: nat | t < |s.threads| :: !PastRecheck(Pc(s, t))
  }

  lemma RecheckStops(p: Params, s: State, st: Step)
    requires Enabled(p, s, st) && !st.BeginCall? && !st.BeginClose? && s.closed
    ensures PastRecheck(Moved(p, s, st).pc) ==> PastRecheck(Pc(s, st.t))
    ensures Dials(st) || Installs(st) ==> PastRecheck(Pc(s, st.t))
  {
    hide GatePc, LivePc, DispatchPc, DeliveryPc;
    if st.Live? { LiveRecheck(p, s, st.t, st.l); } else { OtherRecheck(p, s, st); }
  }

  lemma LiveRecheck(p: Params, s: State, t: nat, l: LiveAction)
    requires At(s, t) && LiveEnabled(s, Pc(s, t), l) && s.closed
    ensures PastRecheck(LivePc(p, s, s.threads[t], l)) ==> PastRecheck(Pc(s, t))
    ensures l.DialSucceeds? || l.InstallConn? ==> PastRecheck(Pc(s, t))
  {
    hide Alive, Frames, Handshake.Opening, Handshake.Learned;
  }

  lemma OtherRecheck(p: Params, s: State, st: Step)
    requires Enabled(p, s, st) && !st.BeginCall? && !st.BeginClose? && !st.Live?
    ensures PastRecheck(Moved(p, s, st).pc) ==> PastRecheck(Pc(s, st.t))
  {
    hide OnBody, Alive, Received;
  }

  lemma QuietStep(p: Params, s: State, st: Step, s': State)
    requires Quiet(s) && Enabled(p, s, st) && s' == Apply(p, s, st)
    ensures Quiet(s') && |s'.conns| == |s.conns| && s'.installed == s.installed
  {
    hide Apply, Enabled, Moved, PastRecheck;
    StepThreads(p, s, st, s');
    StepFields(p, s, st, s');
    StepConns(p, s, st, s');
    InstalledMoves(p, s, st, s');
    if !st.BeginCall? && !st.BeginClose? { RecheckStops(p, s, st); }
    forall t: nat | t < |s'.threads| ensures !PastRecheck(Pc(s', t)) {
      if t < |s.threads| { assert !PastRecheck(Pc(s, t)); } else { NewIsNotPast(p, s, st, s', t); }
    }
  }

  lemma NewIsNotPast(p: Params, s: State, st: Step, s': State, t: nat)
    requires Enabled(p, s, st) && s' == Apply(p, s, st) && |s.threads| <= t < |s'.threads|
    ensures !PastRecheck(Pc(s', t))
  {
    hide Apply, Enabled, Moved;
    StepThreads(p, s, st, s');
  }

  /** If Close sets the flag while nobody is past the recheck, no connection is
      dialed or installed ever after. */
  lemma {:induction false} NothingAfterQuiet(p: Params, run: seq<State>, i: nat, j: nat)
    requires IsRun(p, run) && i <= j < |run| && Quiet(run[i])
    ensures Quiet(run[j]) && |run[j].conns| == |run[i].conns| && run[j].installed == run[i].installed
  {
    hide Apply, Enabled, IsRun, Quiet;
    if i < j {
      NothingAfterQuiet(p, run, i, j - 1);
      var st := StepOf(p, run, j - 1);
      QuietStep(p, run[j - 1], st, run[j]);
    }
  }

  /** A Close that has not yet taken the connection, or has left none. */
  ghost predicate Taking(s: State, u: nat) {
    At(s, u) && (s.current == None || Pc(s, u).CloseGate? || Pc(s, u).CloseTake?)
  }

  lemma TakingStep(p: Params, s: State, st: Step, s': State, u: nat)
    requires Taking(s, u) && Quiet(s) && Enabled(p, s, st) && s' == Apply(p, s, st)
    ensures Taking(s', u)
  {
    hide Apply, Moved, LiveEnabled, DispatchEnabled, DeliveryEnabled, PastRecheck;
    StepThreads(p, s, st, s');
    StepFields(p, s, st, s');
    if !st.BeginCall? && !st.BeginClose? {
      RecheckStops(p, s, st);
      assert !PastRecheck(Pc(s, st.t));
      if st.t == u { CloserMoves(p, s, st); }
    }
  }

  lemma CloserMoves(p: Params, s: State, st: Step)
    requires Enabled(p, s, st) && !st.BeginCall? && !st.BeginClose?
    ensures Pc(s, st.t).CloseGate? ==> Moved(p, s, st).pc.CloseTake?
    ensures Pc(s, st.t).CloseTake? ==> st.Gate? && st.g.TakeConn?
  {
  }

  lemma {:induction false} TakingLasts(p: Params, run: seq<State>, i: nat, j: nat, u: nat)
    requires IsRun(p, run) && i <= j < |run| && Quiet(run[i]) && Taking(run[i], u)
    ensures Taking(run[j], u)
  {
    hide Apply, Enabled, IsRun, Quiet, Taking;
    if i < j {
      TakingLasts(p, run, i, j - 1, u);
      NothingAfterQuiet(p, run, i, j - 1);
      var st := StepOf(p, run, j - 1);
      TakingStep(p, run[j - 1], st, run[j], u);
    }
  }

  ghost predicate ClosersDone(s: State) {
    forall t: nat | t < |s.threads| && s.threads[t].kind == Closer :: Pc(s, t).Done?
  }

  /** A Close that starts while nobody is past the recheck leaves nothing alive:
      when every Close has returned, no connection is, and none ever will be. */
  lemma CloseShutsEverything(p: Params, run: seq<State>, i: nat, j: nat, u: nat, c: nat)
    requires IsRun(p, run) && i <= j < |run|
    requires Quiet(run[i]) && At(run[i], u) && run[i].threads[u].kind == Closer && Pc(run[i], u) == CloseGate
    requires ClosersDone(run[j])
    ensures run[j].current == None && !Alive(run[j], c) && Quiet(run[j])
  {
    hide IsRun, Quiet;
    NothingAfterQuiet(p, run, i, j);
    TakingLasts(p, run, i, j, u);
    CloserStays(p, run, i, j, u);
    assert SoleOk(run[j]) && RolesOk(run[j]) by { hide SoleOk, RolesOk; RunKeepsInvariant(p, run, j); }
    if c < |run[j].conns| { NoneKept(run[j], c); }
  }

  lemma CloserStays(p: Params, run: seq<State>, i: nat, j: nat, u: nat)
    requires IsRun(p, run) && i <= j < |run| && At(run[i], u)
    ensures At(run[j], u) && run[j].threads[u].kind == run[i].threads[u].kind
    decreases j
  {
    hide Apply, Enabled, IsRun;
    if i < j {
      CloserStays(p, run, i, j - 1, u);
      var st := StepOf(p, run, j - 1);
      StepGrows(p, run[j - 1], st, run[j]);
    }
  }

  lemma NoneKept(s: State, c: nat)
    requires RolesOk(s) && Quiet(s) && ClosersDone(s) && s.current == None
    ensures !Kept(s, c)
  {
    forall t: nat ensures !Shutting(s, t, c) {
      if At(s, t) { assert RoleOk(s, t); }
    }
    assert s.redialer.Some? ==> !PastRecheck(Pc(s, s.redialer.value));
  }
}
