/** A call's frame is fully written at most once, over all connections. */
module ClientOnce {
  import opened Client
  import opened ClientHistory
  import opened ClientControl
  import opened ClientRetry

  /** The i-th frame on connection c is the command of caller t. */
  predicate CallerFrame(s: State, c: nat, i: nat, t: nat) {
    c < |s.conns| && i < |s.conns[c].written| && s.conns[c].written[i].mode.User? && s.conns[c].written[i].owner == t
  }

  ghost predicate FramesCounted(s: State) {
    forall c: nat, i: nat, t: nat | CallerFrame(s, c, i, t) :: At(s, t) && s.threads[t].writes == 1
  }

  ghost predicate FramesUnique(s: State) {
    forall c: nat, i: nat, d: nat, j: nat, t: nat | CallerFrame(s, c, i, t) && CallerFrame(s, d, j, t) :: c == d && i == j
  }

  ghost predicate OnceOk(s: State) { FramesCounted(s) && FramesUnique(s) }

  predicate Writes(st: Step, pc: PC) { st.Dispatch? && st.d.WriteSucceeds? && pc.Writing? && pc.m.User? }

  /** Which frames of callers a step adds. */
  lemma FramesMove(p: Params, s: State, st: Step, s': State, c: nat, i: nat, t: nat)
    requires Enabled(p, s, st) && s' == Apply(p, s, st) && CallerFrame(s', c, i, t)
    ensures CallerFrame(s, c, i, t)
      || (Mover(s, st) == t && At(s, t) && Writes(st, Pc(s, t)) && Pc(s, t).c == c && c < |s.conns| && i == |s.conns[c].written|)
  {
    hide Apply, Frames;
    StepConns(p, s, st, s');
    if c < |s.conns| { assert FateIs(p, s, st, s', c); }
  }

  lemma CountedStep(p: Params, s: State, st: Step, s': State)
    requires OnceOk(s) && RetriesOk(s) && RetriesOk(s') && Enabled(p, s, st) && s' == Apply(p, s, st)
    ensures FramesCounted(s')
  {
    hide Apply, Enabled, Moved, FramesUnique, TriedDead, TriedPlaced, CandidateOk, BudgetOk;
    StepGrows(p, s, st, s');
    forall c: nat, i: nat, t: nat | CallerFrame(s', c, i, t) ensures At(s', t) && s'.threads[t].writes == 1 {
      FramesMove(p, s, st, s', c, i, t);
      if CallerFrame(s, c, i, t) {
        assert s.threads[t].writes == 1;
      } else {
        StepThreads(p, s, st, s');
        WriteCounts(p, s, st);
      }
      assert RetryOk(s', s'.threads[t]);
    }
  }

  lemma WriteCounts(p: Params, s: State, st: Step)
    requires Enabled(p, s, st) && !st.BeginCall? && !st.BeginClose? && At(s, st.t) && Writes(st, Pc(s, st.t))
    ensures Moved(p, s, st).writes == s.threads[st.t].writes + 1
  {
  }

  lemma OnceStep(p: Params, s: State, st: Step, s': State)
    requires OnceOk(s) && RetriesOk(s) && RetriesOk(s') && Enabled(p, s, st) && s' == Apply(p, s, st)
    ensures OnceOk(s')
  {
    hide Apply, Enabled, Moved, TriedDead, TriedPlaced, CandidateOk, BudgetOk, FramesCounted;
    CountedStep(p, s, st, s');
    forall c: nat, i: nat, d: nat, j: nat, t: nat | CallerFrame(s', c, i, t) && CallerFrame(s', d, j, t)
      ensures c == d && i == j
    {
      FramesMove(p, s, st, s', c, i, t);
      FramesMove(p, s, st, s', d, j, t);
      if At(s, t) && Writes(st, Pc(s, t)) {
        NoneBefore(s, c, i, t);
        NoneBefore(s, d, j, t);
      }
    }
  }

  lemma NoneBefore(s: State, c: nat, i: nat, t: nat)
    requires OnceOk(s) && RetriesOk(s) && At(s, t) && Pc(s, t).Writing?
    ensures Pc(s, t).m.User? ==> !CallerFrame(s, c, i, t)
  {
    assert RetryOk(s, s.threads[t]);
  }

  lemma InitOnceOk()
    ensures OnceOk(Init())
  {
  }
}
