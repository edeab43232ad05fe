/** Which call a caller's thread belongs to, from the step that began it to the end of the run. */
module ClientBegins {
  import opened ClientTypes
  import opened Client
  import opened ClientControl
  import opened ClientRuns

  /** The i-th step of the run begins a call of cmd, carried out by the new thread t. */
  ghost predicate BegunAt(p: Params, run: seq<State>, i: nat, t: nat, cmd: Command) {
    Takes(p, run, i, BeginCall(cmd)) && |run[i].threads| == t
  }

  /** The frame carries the command, with its arguments, of the one call its owner was begun with. */
  ghost predicate CarriesCall(p: Params, run: seq<State>, f: Written) {
    && (exists i: nat, cmd :: BegunAt(p, run, i, f.owner, cmd))
    && forall i: nat, cmd | BegunAt(p, run, i, f.owner, cmd) :: f.req.command == cmd.name && f.req.args == cmd.args
  }

  /** A new caller: kind, command and everything it starts from. */
  lemma BeginAddsCaller(p: Params, run: seq<State>, i: nat, t: nat, cmd: Command)
    requires BegunAt(p, run, i, t, cmd)
    ensures i + 1 < |run| && At(run[i + 1], t) && !At(run[i], t)
    ensures run[i + 1].threads[t].kind == Caller && run[i + 1].threads[t].cmd == cmd
  {
  }

  lemma ThreadKeepsCommand(p: Params, s: State, st: Step, s': State, t: nat)
    requires Enabled(p, s, st) && s' == Apply(p, s, st) && At(s, t)
    ensures At(s', t) && s'.threads[t].cmd == s.threads[t].cmd && s'.threads[t].kind == s.threads[t].kind
  {
    hide Apply, Enabled, Moved;
    StepThreads(p, s, st, s');
    if !st.BeginCall? && !st.BeginClose? { MoverKeepsCommand(p, s, st); }
  }

  lemma MoverKeepsCommand(p: Params, s: State, st: Step)
    requires Enabled(p, s, st) && !st.BeginCall? && !st.BeginClose?
    ensures Moved(p, s, st).cmd == s.threads[st.t].cmd && Moved(p, s, st).kind == s.threads[st.t].kind
  {
  }

  lemma {:induction false} ThreadsKeepCommand(p: Params, run: seq<State>, i: nat, n: nat, t: nat)
    requires IsRun(p, run) && i <= n < |run| && At(run[i], t)
    ensures At(run[n], t) && run[n].threads[t].cmd == run[i].threads[t].cmd && run[n].threads[t].kind == run[i].threads[t].kind
  {
    hide IsRun, Apply, Enabled;
    if i < n {
      ThreadsKeepCommand(p, run, i, n - 1, t);
      var st := StepOf(p, run, n - 1);
      ThreadKeepsCommand(p, run[n - 1], st, run[n], t);
    }
  }

  /** From the step that begins a call on, its thread is a caller with that very command. */
  lemma CommandIsKept(p: Params, run: seq<State>, i: nat, n: nat, t: nat, cmd: Command)
    requires IsRun(p, run) && n < |run| && BegunAt(p, run, i, t, cmd)
    ensures At(run[n], t) <==> i < n
    ensures i < n ==> run[n].threads[t].kind == Caller && run[n].threads[t].cmd == cmd
  {
    hide IsRun, BegunAt;
    BeginAddsCaller(p, run, i, t, cmd);
    if i < n {
      ThreadsKeepCommand(p, run, i + 1, n, t);
    } else if At(run[n], t) {
      ThreadsKeepCommand(p, run, n, i, t);
    }
  }

  /** Every caller was begun, at exactly one step and with exactly one command. */
  lemma {:induction false} CallIsBegunOnce(p: Params, run: seq<State>, n: nat, t: nat) returns (i: nat, cmd: Command)
    requires IsRun(p, run) && n < |run| && At(run[n], t) && run[n].threads[t].kind == Caller
    ensures i < n && BegunAt(p, run, i, t, cmd) && run[n].threads[t].cmd == cmd
    ensures forall j: nat, other :: BegunAt(p, run, j, t, other) ==> j == i && other == cmd
  {
    hide IsRun, BegunAt, Apply, Enabled;
    i, cmd := CallIsBegun(p, run, n, t);
    forall j: nat, other | BegunAt(p, run, j, t, other) ensures j == i && other == cmd {
      BeginAddsCaller(p, run, i, t, cmd);
      BeginAddsCaller(p, run, j, t, other);
      CommandIsKept(p, run, i, n, t, cmd);
      CommandIsKept(p, run, j, n, t, other);
      CommandIsKept(p, run, i, j, t, cmd);
      CommandIsKept(p, run, j, i, t, other);
    }
  }

  lemma {:induction false} CallIsBegun(p: Params, run: seq<State>, n: nat, t: nat) returns (i: nat, cmd: Command)
    requires IsRun(p, run) && n < |run| && At(run[n], t) && run[n].threads[t].kind == Caller
    ensures i < n && BegunAt(p, run, i, t, cmd) && run[n].threads[t].cmd == cmd
  {
    hide IsRun, Apply, Enabled, Moved;
    if n == 0 {
      StartsWithoutCallers(p, run, t);
    } else {
      var st := StepOf(p, run, n - 1);
      StepThreads(p, run[n - 1], st, run[n]);
      if At(run[n - 1], t) {
        ThreadKeepsCommand(p, run[n - 1], st, run[n], t);
        i, cmd := CallIsBegun(p, run, n - 1, t);
      } else {
        i, cmd := n - 1, st.cmd;
      }
    }
  }

  lemma StartsWithoutCallers(p: Params, run: seq<State>, t: nat)
    requires IsRun(p, run) && At(run[0], t)
    ensures run[0].threads[t].kind == Connector
  {
  }

  /** What is written for a caller's thread with its own command carries the call it was begun with. */
  lemma CommandCarriesCall(p: Params, run: seq<State>, n: nat, f: Written)
    requires IsRun(p, run) && n < |run| && At(run[n], f.owner) && run[n].threads[f.owner].kind == Caller
    requires f.req.command == run[n].threads[f.owner].cmd.name && f.req.args == run[n].threads[f.owner].cmd.args
    ensures CarriesCall(p, run, f)
  {
    hide IsRun, BegunAt;
    var i, cmd := CallIsBegunOnce(p, run, n, f.owner);
  }
}
