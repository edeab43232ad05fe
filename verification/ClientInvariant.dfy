/** Everything the client keeps, at every step of every run. */
module ClientInvariant {
  import opened Client
  import opened ClientWaiters
  import opened ClientErrors
  import opened ClientIds
  import opened ClientRoles
  import opened ClientLife
  import opened ClientOpening
  import opened ClientCounts
  import opened ClientRetry
  import opened ClientOnce
  import opened ClientRouting
  import opened ClientAnswers
  import opened ClientGreeting
  import opened ClientAccounts

  ghost predicate Invariant(p: Params, s: State) {
    && WaitersOk(s) && ErrorsOk(s) && IdsOk(s) && RolesOk(s)
    && InstalledOk(s) && SoleOk(s) && InfoOk(s) && OpeningsOk(p, s)
    && CountsOk(s) && s.permits <= Bound(p)
    && RetriesOk(s) && s.threads[0].budget == 0 && OnceOk(s) && RoutingOk(s) && AnswersOk(s) && GreetingsOk(p, s) && AccountsOk(s)
  }

  lemma InitInvariant(p: Params)
    ensures Invariant(p, Init())
  {
    hide Init, ErrorsOk, RolesOk, InstalledOk, SoleOk, InfoOk, OpeningsOk, CountsOk, RetriesOk, OnceOk, RoutingOk, AnswersOk;
    hide GreetingsOk, AccountsOk, WaitersOk, IdsOk;
    InitErrorsOk();
    InitRolesOk();
    InitLifeOk();
    InitOpeningsOk(p);
    InitCountsOk();
    InitRetriesOk();
    InitOnceOk();
    InitRoutingOk();
    InitAnswersOk();
    InitGreetingsOk(p);
    InitAccountsOk();
    NothingAtStart(p);
  }

  lemma NothingAtStart(p: Params)
    ensures var s := Init(); WaitersOk(s) && IdsOk(s) && s.permits <= Bound(p) && |s.threads| > 0 && s.threads[0].budget == 0
  {
  }

  lemma InvariantStep(p: Params, s: State, st: Step, s': State)
    requires Invariant(p, s) && Enabled(p, s, st) && s' == Apply(p, s, st)
    ensures Invariant(p, s')
  {
    hide Apply, Enabled, WaitersOk, ErrorsOk, IdsOk, RolesOk, InstalledOk, SoleOk, InfoOk, OpeningsOk;
    hide CountsOk, RetriesOk, OnceOk, RoutingOk, AnswersOk, GreetingsOk, AccountsOk;
    ReaderInRange(p, s, st);
    WaitersStep(p, s, st);
    ErrorsStep(p, s, st, s');
    IdsStep(p, s, st, s');
    RolesStep(p, s, st, s');
    InstalledStep(p, s, st, s');
    SoleStep(p, s, st, s');
    InfoStep(p, s, st, s');
    OpeningsStep(p, s, st, s');
    CountsStep(p, s, st, s');
    PermitsStep(p, s, st, s');
    HasThread(s);
    ConnectorBudget(p, s, st, s');
    RetriesStep(p, s, st, s');
    OnceStep(p, s, st, s');
    RoutingStep(p, s, st, s');
    AnswersStep(p, s, st, s');
    GreetingsStep(p, s, st, s');
    AccountsStep(p, s, st, s');
  }

  lemma HasThread(s: State)
    requires RolesOk(s)
    ensures |s.threads| > 0
  {
  }

  lemma ReaderInRange(p: Params, s: State, st: Step)
    requires ErrorsOk(s) && Enabled(p, s, st)
    ensures st.Delivery? ==> At(s, st.t) && (Pc(s, st.t).Reading? ==> Pc(s, st.t).c < |s.conns|)
  {
    hide ApplyDelivery;
    if st.Delivery? { assert PcOk(s, Pc(s, st.t)); }
  }

  // --- over runs ---

  lemma {:induction false} RunKeepsInvariant(p: Params, run: seq<State>, i: nat)
    requires IsRun(p, run) && i < |run|
    ensures Invariant(p, run[i])
  {
    hide Invariant, Apply, Enabled;
    if i == 0 {
      InitInvariant(p);
    } else {
      RunKeepsInvariant(p, run, i - 1);
      assert Next(p, run[i - 1], run[i - 1 + 1]);
      var st :| Enabled(p, run[i - 1], st) && Apply(p, run[i - 1], st) == run[i];
      InvariantStep(p, run[i - 1], st, run[i]);
    }
  }

  lemma ReachableKeepsInvariant(p: Params, s: State)
    requires Reachable(p, s)
    ensures Invariant(p, s)
  {
    hide Invariant, Next, Init;
    var run :| IsRun(p, run) && run[|run| - 1] == s;
    RunKeepsInvariant(p, run, |run| - 1);
  }
}
