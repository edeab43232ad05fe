/**
 What is written on a connection: the configured opening in order, by the
 thread that dialed it, and only then the commands of callers, each at most once.
 */
module ClientOpening {
  import opened Wrappers
  import opened ClientTypes
  import opened ConnTable
  import opened Client
  import opened ClientHistory
  import opened ClientControl
  import opened ClientErrors
  import opened ClientRoles
  import opened ClientLife
  import Handshake

  // --- how far the opening is ---

  /** The opening frames written so far. */
  function Opened(p: Params, x: Conn): nat {
    if x.greeted then |Frames(p)| else |x.written|
  }

  ghost predicate OpeningFrame(p: Params, x: Conn, i: nat)
    requires i < |x.written|
  {
    var f := x.written[i];
    i < |Frames(p)| && f.mode == Opening(i) && f.owner == x.opener
    && f.req.command == Frames(p)[i].name && f.req.args == Frames(p)[i].args
  }

  ghost predicate CallFrame(s: State, x: Conn, i: nat)
    requires i < |x.written|
  {
    var f := x.written[i];
    f.mode.User? && At(s, f.owner) && s.threads[f.owner].kind == Caller
    && f.req.command == s.threads[f.owner].cmd.name && f.req.args == s.threads[f.owner].cmd.args
  }

  /** First the opening, whole once the handshake has succeeded; then commands of callers. */
  ghost predicate WrittenOk(p: Params, s: State, x: Conn) {
    var n := Opened(p, x);
    && n <= |x.written| && n <= |Frames(p)|
    && (forall i: nat | i < n :: OpeningFrame(p, x, i))
    && (forall i: nat | n <= i < |x.written| :: CallFrame(s, x, i))
  }

  /** Where the code is in the opening of its connection. */
  predicate ProgressOk(p: Params, s: State, pc: PC) {
    match pc
    case Greeting(c, k, _) => Progress(s, c, k) && k <= |Frames(p)|
    case SetInfo(c, _) => Greeted(s, c)
    case Install(c) => Greeted(s, c)
    case Alloc(c, m) => InDispatch(p, s, c, m, 0)
    case Register(c, m, _, _) => InDispatch(p, s, c, m, 0)
    case Writing(c, m, _) => InDispatch(p, s, c, m, 0)
    case Unregister(c, m, _) => InDispatch(p, s, c, m, 0)
    case Awaiting(c, m, _) => InDispatch(p, s, c, m, 1)
    case Leaving(c, m, _, _) => InDispatch(p, s, c, m, 1)
    case Kill(c, _, AfterWrite(Opening(k))) => k < |Frames(p)|
    case Sending(c, _, _, AfterWrite(Opening(k))) => k < |Frames(p)|
    case CheckAlive(Some(c)) => Greeted(s, c)
    case ReCheckAlive(Some(c)) => Greeted(s, c)
    case Unlock(Go(c)) => Greeted(s, c)
    case _ => true
  }

  predicate Greeted(s: State, c: nat) { c < |s.conns| && s.conns[c].greeted }

  /** Still in the opening, with n frames written. */
  predicate Progress(s: State, c: nat, n: nat) {
    c < |s.conns| && !s.conns[c].greeted && |s.conns[c].written| == n
  }

  /** `done` tells whether the frame of this dispatch is written. */
  predicate InDispatch(p: Params, s: State, c: nat, m: Mode, done: nat) {
    match m
    case User => Greeted(s, c)
    case Opening(k) => k < |Frames(p)| && Progress(s, c, k + done)
  }

  ghost predicate OpeningsOk(p: Params, s: State) {
    && (forall c: nat | c < |s.conns| :: WrittenOk(p, s, s.conns[c]))
    && (forall t: nat | t < |s.threads| :: ProgressOk(p, s, Pc(s, t)))
  }

  // --- control flow ---

  lemma AfterDispatchProgress(p: Params, s: State, th: Thread, c: nat, m: Mode, r: Outcome)
    requires m.Opening? && r.Ok? ==> m.k < |Frames(p)| && Progress(s, c, m.k + 1)
    ensures ProgressOk(p, s, AfterDispatch(th, c, m, r))
  {
    hide Frames;
  }

  predicate Changes(st: Step) {
    Dials(st) || (st.Live? && st.l.GreetNext?) || (st.Dispatch? && st.d.WriteSucceeds?)
  }

  lemma GateProgress(p: Params, s: State, pc: PC, g: GateAction)
    requires GateEnabled(p, s, pc, g)
    ensures ProgressOk(p, s, GatePc(s, pc, g))
  {
    hide Frames;
  }

  lemma LiveProgress(p: Params, s: State, th: Thread, l: LiveAction)
    requires LiveEnabled(s, th.pc, l) && ProgressOk(p, s, th.pc) && !l.DialSucceeds? && !l.GreetNext?
    requires s.current.Some? ==> Greeted(s, s.current.value)
    ensures ProgressOk(p, s, LivePc(p, s, th, l))
  {
    hide Frames, Alive;
  }

  lemma DispatchProgress(p: Params, s: State, th: Thread, d: DispatchAction)
    requires DispatchEnabled(s, th.pc, d) && ProgressOk(p, s, th.pc) && !d.WriteSucceeds?
    ensures ProgressOk(p, s, DispatchPc(s, th, d))
  {
    hide Frames, Alive, AfterDispatch, Received;
    match d {
      case RegisterWaiter => AfterDispatchProgress(p, s, th, th.pc.c, th.pc.m, Err(WriteFailed));
      case Receive => AfterDispatchProgress(p, s, th, th.pc.c, th.pc.m, Received(s.waiters[th.pc.w].chan.value));
      case RemoveOnLeave => AfterDispatchProgress(p, s, th, th.pc.c, th.pc.m, Err(th.pc.why));
      case _ =>
    }
  }

  lemma DeliveryProgress(p: Params, s: State, th: Thread, v: DeliveryAction)
    requires DeliveryEnabled(s, th.pc, v) && ProgressOk(p, s, th.pc)
    ensures ProgressOk(p, s, DeliveryPc(p, s, th, v))
  {
    hide Frames, OnBody, AfterDispatch;
    if v.PoisonDone? && th.pc.after.AfterWrite? {
      AfterDispatchProgress(p, s, th, th.pc.c, th.pc.after.mode, Err(WriteFailed));
    }
  }

  lemma MoverProgress(p: Params, s: State, st: Step)
    requires Enabled(p, s, st) && !st.BeginCall? && !st.BeginClose? && !Changes(st)
    requires ProgressOk(p, s, Pc(s, st.t)) && (s.current.Some? ==> Greeted(s, s.current.value))
    ensures ProgressOk(p, s, Moved(p, s, st).pc)
  {
    hide Frames, GatePc, LivePc, DispatchPc, DeliveryPc, ProgressOk;
    match st {
      case Gate(t, g) => GateProgress(p, s, Pc(s, t), g);
      case Live(t, l) => LiveProgress(p, s, s.threads[t], l);
      case Dispatch(t, d) => DispatchProgress(p, s, s.threads[t], d);
      case Delivery(t, v) => DeliveryProgress(p, s, s.threads[t], v);
    }
  }

  // --- every step ---

  /** Nothing about the opening of c changes. */
  ghost predicate SameOpening(s: State, s': State, c: nat) {
    c < |s.conns| && c < |s'.conns| && s'.conns[c].greeted == s.conns[c].greeted
    && s'.conns[c].written == s.conns[c].written && s'.conns[c].opener == s.conns[c].opener
  }

  lemma QuietSteps(p: Params, s: State, st: Step, s': State, c: nat)
    requires Enabled(p, s, st) && s' == Apply(p, s, st) && c < |s.conns|
    requires Changes(st) && !Dials(st) ==> Pc(s, st.t).c != c
    ensures SameOpening(s, s', c)
  {
    hide Apply, Frames;
    StepConns(p, s, st, s');
    assert FateIs(p, s, st, s', c);
  }

  lemma ProgressStays(p: Params, s: State, s': State, pc: PC)
    requires ProgressOk(p, s, pc) && ConnsGrow(s, s')
    requires Opens(pc).Some? && !Greeted(s, Opens(pc).value) ==> SameOpening(s, s', Opens(pc).value)
    ensures ProgressOk(p, s', pc)
  {
    hide Frames;
    if ConnOf(pc).Some? && ConnOf(pc).value < |s.conns| {
      assert ConnGrows(s.conns[ConnOf(pc).value], s'.conns[ConnOf(pc).value]);
    }
  }

  lemma DialerProgress(p: Params, s: State, s': State)
    requires |s'.conns| == |s.conns| + 1 && s'.conns[|s.conns|] == Conn(FRESH, s'.conns[|s.conns|].opener, None, [], false, None, None)
    ensures ProgressOk(p, s', AfterDial(p, |s.conns|))
  {
    hide Handshake.Opening, Frames;
  }

  lemma GreeterProgress(p: Params, s: State, t: nat, s': State)
    requires At(s, t) && Pc(s, t).Greeting? && ProgressOk(p, s, Pc(s, t)) && Pc(s, t).c < |s'.conns|
    requires var x, c := s.conns[Pc(s, t).c], Pc(s, t).c;
      s'.conns[c].written == x.written && s'.conns[c].greeted == (x.greeted || Pc(s, t).k >= |Frames(p)|)
    ensures ProgressOk(p, s', LivePc(p, s, s.threads[t], GreetNext))
  {
    hide Frames, Handshake.Learned;
  }

  lemma WriterProgress(p: Params, s: State, t: nat, s': State)
    requires At(s, t) && Pc(s, t).Writing? && ProgressOk(p, s, Pc(s, t)) && Pc(s, t).c < |s'.conns|
    requires var x, c := s.conns[Pc(s, t).c], Pc(s, t).c;
      |s'.conns[c].written| == |x.written| + 1 && s'.conns[c].greeted == x.greeted
    ensures ProgressOk(p, s', DispatchPc(s, s.threads[t], WriteSucceeds))
  {
    hide Frames;
  }

  /** The moving thread, when it dials, greets or writes. */
  lemma ChangerProgress(p: Params, s: State, st: Step, s': State)
    requires Enabled(p, s, st) && s' == Apply(p, s, st) && Changes(st) && ProgressOk(p, s, Pc(s, st.t))
    ensures ProgressOk(p, s', Moved(p, s, st).pc)
  {
    hide Apply, Frames, Handshake.Opening, Handshake.Learned, AfterDial, RequestOf;
    StepConns(p, s, st, s');
    if Dials(st) {
      DialerProgress(p, s, s');
    } else {
      InDispatchRange(p, s, Pc(s, st.t));
      assert FateIs(p, s, st, s', Pc(s, st.t).c);
      hide ProgressOk;
      if st.Live? { GreeterProgress(p, s, st.t, s'); } else { WriterProgress(p, s, st.t, s'); }
    }
  }

  lemma InDispatchRange(p: Params, s: State, pc: PC)
    requires ProgressOk(p, s, pc) && (pc.Greeting? || pc.Writing?)
    ensures pc.c < |s.conns|
  {
    hide Frames;
  }

  /** A caller's frame goes out after the handshake, an opening frame from the opener alone:
      either way another thread's opening is not disturbed. */
  lemma OthersUndisturbed(p: Params, s: State, st: Step, s': State, u: nat)
    requires Enabled(p, s, st) && s' == Apply(p, s, st) && Changes(st) && !Dials(st)
    requires RolesOk(s) && ProgressOk(p, s, Pc(s, st.t)) && At(s, u) && u != st.t
    requires Opens(Pc(s, u)).Some? && !Greeted(s, Opens(Pc(s, u)).value) && Opens(Pc(s, u)).value < |s.conns|
    ensures SameOpening(s, s', Opens(Pc(s, u)).value)
  {
    hide Apply, Frames;
    assert RoleOk(s, u) && RoleOk(s, st.t);
    OpenersHoldLock(Pc(s, u));
    QuietSteps(p, s, st, s', Opens(Pc(s, u)).value);
  }

  lemma ProgressStep(p: Params, s: State, st: Step, s': State, t: nat)
    requires OpeningsOk(p, s) && RolesOk(s) && InstalledOk(s) && Enabled(p, s, st) && s' == Apply(p, s, st)
    requires ConnsGrow(s, s') && At(s, t) && At(s', t) && PcOk(s, Pc(s, t))
    ensures ProgressOk(p, s', Pc(s', t))
  {
    hide Apply, Enabled, Moved, Frames, ProgressOk, PcOk;
    StepThreads(p, s, st, s');
    var pc := Pc(s, t);
    assert ProgressOk(p, s, pc);
    OpenersHoldLock(pc);
    if Mover(s, st) == t && Changes(st) {
      ChangerProgress(p, s, st, s');
    } else if Mover(s, st) == t {
      CurrentIsGreeted(s);
      MoverProgress(p, s, st);
      assert forall c: nat | c < |s.conns| :: SameOpening(s, s', c) by {
        forall c: nat | c < |s.conns| ensures SameOpening(s, s', c) { QuietSteps(p, s, st, s', c); }
      }
      MovedInRange(p, s, st, s');
      ProgressStays(p, s, s', Moved(p, s, st).pc);
    } else {
      if Opens(pc).Some? && !Greeted(s, Opens(pc).value) {
        assert Opens(pc).value < |s.conns| by { assert PcOk(s, pc); InRange(s, pc); }
        if Changes(st) && !Dials(st) {
          assert ProgressOk(p, s, Pc(s, st.t));
          OthersUndisturbed(p, s, st, s', t);
        } else { QuietSteps(p, s, st, s', Opens(pc).value); }
      }
      ProgressStays(p, s, s', pc);
    }
  }

  lemma InRange(s: State, pc: PC)
    requires PcOk(s, pc)
    ensures ConnOf(pc).Some? ==> ConnOf(pc).value < |s.conns|
  {
  }

  lemma CurrentIsGreeted(s: State)
    requires InstalledOk(s)
    ensures s.current.Some? ==> Greeted(s, s.current.value)
  {
    if s.current.Some? {
      assert IsKth(s, |s.installed| - 1);
      assert OrdinalOk(s, s.current.value);
    }
  }

  /** What a thread opens after a step that dials nothing, it opened before. */
  lemma MovedInRange(p: Params, s: State, st: Step, s': State)
    requires Enabled(p, s, st) && !st.BeginCall? && !st.BeginClose? && !Dials(st) && PcOk(s, Pc(s, st.t))
    ensures Opens(Moved(p, s, st).pc).Some? ==> Opens(Moved(p, s, st).pc).value < |s.conns|
  {
    hide Moved;
    MoverOpens(p, s, st);
    OpenersHoldLock(Pc(s, st.t));
  }

  // --- the frames on a connection ---

  lemma WrittenStays(p: Params, s: State, s': State, x: Conn, y: Conn)
    requires WrittenOk(p, s, x) && y.greeted == x.greeted && y.written == x.written && y.opener == x.opener
    requires forall t: nat | t < |s.threads| ::
      At(s', t) && s'.threads[t].cmd == s.threads[t].cmd && s'.threads[t].kind == s.threads[t].kind
    ensures WrittenOk(p, s', y)
  {
    hide Frames;
    forall i: nat | i < Opened(p, y) ensures OpeningFrame(p, y, i) { assert OpeningFrame(p, x, i); }
    forall i: nat | Opened(p, y) <= i < |y.written| ensures CallFrame(s', y, i) { assert CallFrame(s, x, i); }
  }

  lemma GreetedStays(p: Params, s: State, x: Conn)
    requires WrittenOk(p, s, x) && !x.greeted && |x.written| == |Frames(p)|
    ensures WrittenOk(p, s, x.(greeted := true))
  {
    hide Frames;
    var y := x.(greeted := true);
    forall i: nat | i < |Frames(p)| ensures OpeningFrame(p, y, i) { assert OpeningFrame(p, x, i); }
  }

  lemma AppendStays(p: Params, s: State, x: Conn, f: Written)
    requires WrittenOk(p, s, x)
    requires f.mode.Opening? ==> !x.greeted && f.mode.k == |x.written| < |Frames(p)| && f.owner == x.opener
    requires f.mode.Opening? ==> f.req.command == Frames(p)[f.mode.k].name && f.req.args == Frames(p)[f.mode.k].args
    requires f.mode.User? ==> x.greeted && At(s, f.owner) && s.threads[f.owner].kind == Caller
    requires f.mode.User? ==> f.req.command == s.threads[f.owner].cmd.name && f.req.args == s.threads[f.owner].cmd.args
    ensures WrittenOk(p, s, x.(written := x.written + [f]))
  {
    hide Frames;
    var y := x.(written := x.written + [f]);
    forall i: nat | i < Opened(p, y) ensures OpeningFrame(p, y, i) {
      if i < Opened(p, x) { assert OpeningFrame(p, x, i); }
    }
    forall i: nat | Opened(p, y) <= i < |y.written| ensures CallFrame(s, y, i) {
      if i < |x.written| { assert CallFrame(s, x, i); }
    }
  }

  /** Commands are written by callers alone. */
  lemma CommandsAreCallers(s: State, t: nat)
    requires RolesOk(s) && At(s, t)
    ensures Pc(s, t).Writing? && Pc(s, t).m.User? ==> s.threads[t].kind == Caller
  {
    assert RoleOk(s, t);
  }

  /** The connection the changing thread works on. */
  lemma ChangedWritten(p: Params, s: State, st: Step, s': State)
    requires Enabled(p, s, st) && s' == Apply(p, s, st) && Changes(st) && !Dials(st)
    requires OpeningsOk(p, s) && InstalledOk(s) && RolesOk(s) && Pc(s, st.t).c < |s.conns|
    ensures Pc(s, st.t).c < |s'.conns| && WrittenOk(p, s, s'.conns[Pc(s, st.t).c])
  {
    hide Apply, Frames, WrittenOk, RolesOk;
    var c := Pc(s, st.t).c;
    var x := s.conns[c];
    CommandsAreCallers(s, st.t);
    StepConns(p, s, st, s');
    assert FateIs(p, s, st, s', c);
    assert ProgressOk(p, s, Pc(s, st.t)) && OpeningOk(s, st.t) && WrittenOk(p, s, x);
    var y := Fate(p, s, st, c);
    if st.Live? {
      if Pc(s, st.t).k >= |Frames(p)| { GreetedStays(p, s, x); }
    } else {
      AppendStays(p, s, x, Written(Pc(s, st.t).m, st.t, RequestOf(p, s, st.t)));
    }
    TableAside(p, s, y, s'.conns[c]);
  }

  lemma TableAside(p: Params, s: State, x: Conn, y: Conn)
    requires WrittenOk(p, s, x) && y == x.(table := y.table)
    ensures WrittenOk(p, s, y)
  {
    WrittenStays(p, s, s, x, y);
  }

  lemma OpeningsStep(p: Params, s: State, st: Step, s': State)
    requires OpeningsOk(p, s) && RolesOk(s) && InstalledOk(s) && ErrorsOk(s) && Enabled(p, s, st) && s' == Apply(p, s, st)
    ensures OpeningsOk(p, s')
  {
    hide Apply, Enabled, Moved, Frames, ProgressOk, PcOk, WrittenOk, RolesOk, InstalledOk;
    StepGrows(p, s, st, s');
    StepThreads(p, s, st, s');
    StepConns(p, s, st, s');
    forall t: nat | t < |s'.threads| ensures ProgressOk(p, s', Pc(s', t)) {
      if t < |s.threads| { ProgressStep(p, s, st, s', t); } else { NewProgress(p, s, st, s', t); }
    }
    forall c: nat | c < |s'.conns| ensures WrittenOk(p, s', s'.conns[c]) {
      if c < |s.conns| { WrittenStep(p, s, st, s', c); } else { NewWritten(p, s', st.t); }
    }
  }

  lemma NewProgress(p: Params, s: State, st: Step, s': State, t: nat)
    requires Enabled(p, s, st) && s' == Apply(p, s, st) && |s.threads| <= t < |s'.threads|
    ensures ProgressOk(p, s', Pc(s', t))
  {
    hide Apply, Enabled, Moved, Frames;
    StepThreads(p, s, st, s');
  }

  lemma NewWritten(p: Params, s: State, t: nat)
    ensures WrittenOk(p, s, Conn(FRESH, t, None, [], false, None, None))
  {
  }

  lemma ChangerHasConn(p: Params, s: State, st: Step)
    requires Enabled(p, s, st)
    ensures Changes(st) && !Dials(st) ==> At(s, st.t) && (Pc(s, st.t).Greeting? || Pc(s, st.t).Writing?)
  {
  }

  lemma WrittenStep(p: Params, s: State, st: Step, s': State, c: nat)
    requires OpeningsOk(p, s) && InstalledOk(s) && RolesOk(s) && Enabled(p, s, st) && s' == Apply(p, s, st) && Grows(s, s')
    requires c < |s.conns|
    ensures c < |s'.conns| && WrittenOk(p, s', s'.conns[c])
  {
    hide Apply, Moved, Frames, WrittenOk, DispatchEnabled, DeliveryEnabled, LiveEnabled, RolesOk;
    StepGrows(p, s, st, s');
    assert WrittenOk(p, s, s.conns[c]);
    ChangerHasConn(p, s, st);
    if Changes(st) && !Dials(st) && Pc(s, st.t).c == c {
      ChangedWritten(p, s, st, s');
      WrittenStays(p, s, s', s'.conns[c], s'.conns[c]);
    } else {
      QuietSteps(p, s, st, s', c);
      WrittenStays(p, s, s', s.conns[c], s'.conns[c]);
    }
  }

  lemma InitOpeningsOk(p: Params)
    ensures OpeningsOk(p, Init())
  {
  }
}
