/**
 The multiplexed client as a transition system. Any number of threads run: the
 connector, callers, closers, and one reader per connection. A step is one
 critical section of one thread, or one of its operations on a channel, the
 gate, an atomic or the network; the network and the contexts of the callers
 behave in any way. The pending table operations are those of ConnTable.
 */
module Client {
  import opened Wrappers
  import opened MsgPack
  import opened Values
  import opened ClientTypes
  import opened ConnTable
  import Codec
  import Handshake
  import Ids
  import Permits = Gate

  const REDIALS: nat := 2

  datatype Params = Params(
    maxInFlight: int,
    hs: Handshake.UsableSettings,
    pushEnabled: bool,
    floats: Codec.Floats)

  /** What travels on a waiter's channel; a response remembers the connection it was read from. */
  datatype Message = Got(resp: Response, from: nat) | Failed(e: Err)

  /** Where a waiter is: registered, in the hands of one thread, sent on, or forgotten by all. */
  datatype Place = InTable | Held(holder: nat) | Sent | Gone

  /** `no` numbers the allocation its id came from; `chan` is the one-slot
      channel; `sends` is the history of what was sent on it. */
  datatype Waiter = Waiter(conn: nat, id: u32, no: nat, owner: nat, chan: Option<Message>, sends: seq<Message>, place: Place)

  /** A frame fully written on a connection. */
  datatype Written = Written(mode: Mode, owner: nat, req: Request)

  /** `error` is the error of the first poison; `ordinal` tells the how-manieth
      installed connection this is; `info` what its handshake learned. */
  datatype Conn = Conn(
    table: Table,
    opener: nat,
    error: Option<Err>,
    written: seq<Written>,
    greeted: bool,
    info: Option<Handshake.Info>,
    ordinal: Option<nat>)

  /** Whether a dispatch carries the caller's command or the k-th opening frame. */
  datatype Mode = User | Opening(k: nat)

  /** What follows a kill. */
  datatype After = AfterWrite(mode: Mode) | AfterGreeting(why: Err) | AfterReading | AfterClosing

  /** What follows the end of a re-dial. */
  datatype Ending = Go(target: nat) | Bail(why: Err)

  datatype PC =
    // gate
    | AcqWait
    | AcqCheck
    | AcqReturn
    // liveConn and establish
    | LiveTop
    | ReadConn
    | CheckAlive(seen: Option<nat>)
    | LockWait
    | Recheck
    | ReRead
    | ReCheckAlive(seen: Option<nat>)
    | Redial(why: Err)
    | Dialing
    | Greeting(c: nat, k: nat, last: Option<Value>)
    | SetInfo(c: nat, learned: Handshake.Info)
    | Install(c: nat)
    | Unlock(ending: Ending)
    // dispatchOnce
    | Alloc(c: nat, m: Mode)
    | Register(c: nat, m: Mode, id: u32, no: nat)
    | Writing(c: nat, m: Mode, w: nat)
    | Unregister(c: nat, m: Mode, w: nat)
    | Awaiting(c: nat, m: Mode, w: nat)
    | Leaving(c: nat, m: Mode, w: nat, why: Err)
    // kill
    | Kill(c: nat, e: Err, after: After)
    | Sending(c: nat, e: Err, drained: set<nat>, after: After)
    // end of a call
    | Release(out: Outcome)
    | Done(out: Outcome)
    // readerLoop
    | Reading(c: nat)
    | Delivering(c: nat, w: nat, resp: Response)
    | Dropping(c: nat)
    // Close
    | CloseGate
    | CloseTake

  datatype Kind = Connector | Caller | Closer | Reader

  /** Beside kind, program counter, command and re-dial budget, a thread carries
      history: the connections a caller dispatched on, how often its own frame
      was fully written, its establish attempts, how many connections had been
      installed when it began, how many it installed, and whether the gate was
      closed when it began. */
  datatype Thread = Thread(
    kind: Kind, pc: PC, cmd: Command, budget: nat,
    tried: seq<nat>, writes: nat, establishes: nat, base: nat, own: nat, late: bool)

  /** Counters beside the client's own fields: `allocs` lists the thread of each
      id allocation, `installed` each connection in order of installation,
      `begun` counts calls, `dials` their establish attempts, `decoded` the
      frames that were not pushes, `taken` the waiters readers took. */
  datatype State = State(
    nextID: u32,
    permits: nat,
    gateClosed: bool,
    closed: bool,
    current: Option<nat>,
    redialer: Option<nat>,
    info: Handshake.Info,
    conns: seq<Conn>,
    waiters: seq<Waiter>,
    threads: seq<Thread>,
    drops: nat,
    allocs: seq<nat>,
    installed: seq<nat>,
    begun: nat,
    dials: nat,
    decoded: nat,
    taken: nat)

  // --- reading the state ---

  /** The capacity of the permit gate. */
  function Bound(p: Params): nat { Permits.Capacity(p.maxInFlight) }

  function GateOf(s: State): Permits.Permits { Permits.Permits(s.permits, s.gateClosed) }

  function Pc(s: State, t: nat): PC
    requires t < |s.threads|
  {
    s.threads[t].pc
  }

  predicate At(s: State, t: nat) { t < |s.threads| }

  predicate Alive(s: State, c: nat) { c < |s.conns| && s.conns[c].table.alive }

  predicate AliveOption(s: State, c: Option<nat>) { c.Some? && Alive(s, c.value) }

  function Frames(p: Params): seq<Command> {
    match Handshake.Opening(p.hs)
    case Ok(cmds) => cmds
    case Err(_) => []
  }

  // --- changing the state ---

  function Move(s: State, t: nat, pc: PC): State
    requires At(s, t)
  {
    s.(threads := s.threads[t := s.threads[t].(pc := pc)])
  }

  function WithGate(s: State, g: Permits.Permits): State { s.(permits := g.held, gateClosed := g.closed) }

  function WithTable(s: State, c: nat, table: Table): State {
    if c < |s.conns| then s.(conns := s.conns[c := s.conns[c].(table := table)]) else s
  }

  function WithPlace(s: State, w: nat, place: Place): State {
    if w < |s.waiters| then s.(waiters := s.waiters[w := s.waiters[w].(place := place)]) else s
  }

  /** One send on the channel of w. */
  function Send(s: State, w: nat, d: Message): State {
    if w < |s.waiters| then
      var x := s.waiters[w];
      s.(waiters := s.waiters[w := x.(chan := Some(d), sends := x.sends + [d], place := Sent)])
    else s
  }

  /** A send on a one-slot channel goes through when the slot is empty. */
  predicate CanSend(s: State, w: nat) { w < |s.waiters| && s.waiters[w].chan.None? }

  /** Whatever the id maps to leaves the table; its place says who let go of it. */
  function Forget(s: State, c: nat, id: u32): State {
    if c < |s.conns| && id in s.conns[c].table.pending then
      WithPlace(WithTable(s, c, Removed(s.conns[c].table, id)), s.conns[c].table.pending[id], Gone)
    else s
  }

  /** The end of one dispatch: where its thread goes on. */
  function AfterDispatch(th: Thread, c: nat, m: Mode, r: Outcome): PC {
    match m
    case User =>
      if r == Err(WriteFailed) then (if th.budget == 0 then Release(Err(ConnectionError)) else LiveTop)
      else Release(r)
    case Opening(k) =>
      match r
      case Ok(v) => Greeting(c, k + 1, Some(v))
      case Err(e) => Kill(c, ConnectionError, AfterGreeting(AsHandshakeError(e)))
  }

  /** The end of a failed establish: an authentication failure is not retried, and
      the connector has no second attempt. */
  function AfterFailedEstablish(th: Thread, e: Err): PC {
    if th.kind == Connector || e == AuthError then Unlock(Bail(e)) else Redial(e)
  }

  function AfterKill(th: Thread, c: nat, after: After): PC {
    match after
    case AfterWrite(m) => AfterDispatch(th, c, m, Err(WriteFailed))
    case AfterGreeting(e) => AfterFailedEstablish(th, e)
    case AfterReading => Done(Ok(Null))
    case AfterClosing => Done(Ok(Null))
  }

  /** The state in which Connect has just been called: it dials, and nobody else
      can reach the client before it returns, which the model expresses by
      letting it hold the re-dial lock. */
  function Init(): State {
    State(1, 0, false, false, None, Some(0), Handshake.BLANK, [], [],
          [Thread(Connector, Dialing, Command([], []), 0, [], 0, 1, 0, 0, false)],
          0, [], [], 0, 0, 0, 0)
  }

  predicate ConnectReturned(s: State) {
    |s.threads| > 0 && s.threads[0].pc.Done? && s.threads[0].pc.out.Ok?
  }

  // --- the reader's decision on one frame body ---

  datatype Action = Refuse(e: Err) | Push | Match(w: nat, resp: Response) | Unmatched

  function OnBody(p: Params, table: Table, body: Octets): Action {
    match Codec.DecodeResponseBody(p.floats, body)
    case None => Refuse(DecodeError)
    case Some(resp) =>
      if resp.id == PUSH_ID then (if p.pushEnabled then Push else Refuse(DecodeError))
      else match Taken(table, resp.id)
        case Some(w) => Match(w, resp)
        case None => Unmatched
  }

  // --- steps ---

  datatype Step =
    | BeginCall(cmd: Command)
    | BeginClose
    | Gate(t: nat, g: GateAction)
    | Live(t: nat, l: LiveAction)
    | Dispatch(t: nat, d: DispatchAction)
    | Delivery(t: nat, v: DeliveryAction)

  /** acquire, release and Close. */
  datatype GateAction = AcqTake | AcqClosed | AcqCancel(e: Err) | AcqDecide | AcqGiveBack | ReleasePermit | ShutGate | TakeConn

  /** liveConn and establish. */
  datatype LiveAction =
    | CheckClosed | LoadConn | DecideAlive
    | Lock | CheckClosedAgain | LoadConnAgain | DecideAliveAgain
    | SpendBudget | DialFails(e: Err) | DialSucceeds | GreetNext | StoreInfo | InstallConn | UnlockRedial

  /** dispatchOnce. */
  datatype DispatchAction =
    | AllocId | RegisterWaiter | WriteSucceeds | WriteFails | RemoveAfterWrite
    | Receive | ContextEnds(e: Err) | RemoveOnLeave

  /** poison, and the reader. */
  datatype DeliveryAction =
    | PoisonSwap | PoisonSend(w: nat) | PoisonDone
    | ReadFrame(body: Octets) | ReadFails(e: Err) | DeliverResponse | CountDrop

  predicate IsContextError(e: Err) { e == TimeoutError || e == ConnectionError }

  predicate Enabled(p: Params, s: State, st: Step) {
    match st
    case BeginCall(_) => ConnectReturned(s)
    case BeginClose => ConnectReturned(s)
    case Gate(t, g) => At(s, t) && GateEnabled(p, s, Pc(s, t), g)
    case Live(t, l) => At(s, t) && LiveEnabled(s, Pc(s, t), l)
    case Dispatch(t, d) => At(s, t) && DispatchEnabled(s, Pc(s, t), d)
    case Delivery(t, v) => At(s, t) && DeliveryEnabled(s, Pc(s, t), v)
  }

  predicate GateEnabled(p: Params, s: State, pc: PC, g: GateAction) {
    match g
    case AcqTake => pc.AcqWait? && Permits.HasRoom(GateOf(s), Bound(p))
    case AcqClosed => pc.AcqWait? && s.gateClosed
    case AcqCancel(e) => pc.AcqWait? && IsContextError(e)
    case AcqDecide => pc.AcqCheck?
    case AcqGiveBack => pc.AcqReturn? && s.permits > 0
    case ReleasePermit => pc.Release? && s.permits > 0
    case ShutGate => pc.CloseGate?
    case TakeConn => pc.CloseTake?
  }

  predicate LiveEnabled(s: State, pc: PC, l: LiveAction) {
    match l
    case CheckClosed => pc.LiveTop?
    case LoadConn => pc.ReadConn?
    case DecideAlive => pc.CheckAlive?
    case Lock => pc.LockWait? && s.redialer == None
    case CheckClosedAgain => pc.Recheck?
    case LoadConnAgain => pc.ReRead?
    case DecideAliveAgain => pc.ReCheckAlive?
    case SpendBudget => pc.Redial?
    case DialFails(e) => pc.Dialing? && IsContextError(e)
    case DialSucceeds => pc.Dialing?
    case GreetNext => pc.Greeting?
    case StoreInfo => pc.SetInfo?
    case InstallConn => pc.Install?
    case UnlockRedial => pc.Unlock?
  }

  predicate DispatchEnabled(s: State, pc: PC, d: DispatchAction) {
    match d
    case AllocId => pc.Alloc?
    case RegisterWaiter => pc.Register?
    case WriteSucceeds => pc.Writing?
    case WriteFails => pc.Writing?
    case RemoveAfterWrite => pc.Unregister?
    case Receive => pc.Awaiting? && pc.w < |s.waiters| && s.waiters[pc.w].chan.Some?
    case ContextEnds(e) => pc.Awaiting? && IsContextError(e)
    case RemoveOnLeave => pc.Leaving?
  }

  predicate DeliveryEnabled(s: State, pc: PC, v: DeliveryAction) {
    match v
    case PoisonSwap => pc.Kill?
    case PoisonSend(w) => pc.Sending? && w in pc.drained && CanSend(s, w)
    case PoisonDone => pc.Sending? && pc.drained == {}
    case ReadFrame(body) => pc.Reading? && |body| < 0x1_0000_0000
    case ReadFails(e) => pc.Reading? && (e == ConnectionError || e == FrameTooLargeError)
    case DeliverResponse => pc.Delivering? && CanSend(s, pc.w)
    case CountDrop => pc.Dropping?
  }

  // --- where a step takes its thread ---

  function GatePc(s: State, pc: PC, g: GateAction): PC
    requires g.ReleasePermit? ==> pc.Release?
  {
    match g
    case AcqTake => AcqCheck
    case AcqClosed => Done(Err(ConnectionClosed))
    case AcqCancel(e) => Done(Err(e))
    case AcqDecide => if s.gateClosed then AcqReturn else LiveTop
    case AcqGiveBack => Done(Err(ConnectionClosed))
    case ReleasePermit => Done(pc.out)
    case ShutGate => CloseTake
    case TakeConn => match s.current { case None => Done(Ok(Null)) case Some(c) => Kill(c, ConnectionClosed, AfterClosing) }
  }

  function LivePc(p: Params, s: State, th: Thread, l: LiveAction): PC
    requires LiveEnabled(s, th.pc, l)
  {
    match l
    case CheckClosed => if s.closed then Release(Err(ConnectionClosed)) else ReadConn
    case LoadConn => CheckAlive(s.current)
    case DecideAlive => if AliveOption(s, th.pc.seen) then Alloc(th.pc.seen.value, User) else LockWait
    case Lock => Recheck
    case CheckClosedAgain => if s.closed then Unlock(Bail(ConnectionClosed)) else ReRead
    case LoadConnAgain => ReCheckAlive(s.current)
    case DecideAliveAgain => if AliveOption(s, th.pc.seen) then Unlock(Go(th.pc.seen.value)) else Redial(ConnectionError)
    case SpendBudget => if th.budget == 0 then Unlock(Bail(th.pc.why)) else Dialing
    case DialFails(e) => AfterFailedEstablish(th, e)
    case DialSucceeds => AfterDial(p, |s.conns|)
    case GreetNext =>
      if th.pc.k < |Frames(p)| then Alloc(th.pc.c, Opening(th.pc.k))
      else SetInfo(th.pc.c, Handshake.Learned(p.hs, th.pc.last))
    case StoreInfo => Install(th.pc.c)
    case InstallConn => Unlock(Go(th.pc.c))
    case UnlockRedial => AfterUnlock(th)
  }

  function AfterDial(p: Params, c: nat): PC {
    match Handshake.Opening(p.hs)
    case Ok(_) => Greeting(c, 0, None)
    case Err(e) => Kill(c, ConnectionError, AfterGreeting(e))
  }

  function AfterUnlock(th: Thread): PC
    requires th.pc.Unlock?
  {
    match th.pc.ending
    case Go(c) => if th.kind == Connector then Done(Ok(Null)) else Alloc(c, User)
    case Bail(e) => if th.kind == Connector then Done(Err(e)) else Release(Err(e))
  }

  function DispatchPc(s: State, th: Thread, d: DispatchAction): PC
    requires DispatchEnabled(s, th.pc, d)
  {
    match d
    case AllocId => Register(th.pc.c, th.pc.m, Ids.Alloc(s.nextID).0, |s.allocs|)
    case RegisterWaiter =>
      if Alive(s, th.pc.c) then Writing(th.pc.c, th.pc.m, |s.waiters|) else AfterDispatch(th, th.pc.c, th.pc.m, Err(WriteFailed))
    case WriteSucceeds => Awaiting(th.pc.c, th.pc.m, th.pc.w)
    case WriteFails => Unregister(th.pc.c, th.pc.m, th.pc.w)
    case RemoveAfterWrite => Kill(th.pc.c, ConnectionError, AfterWrite(th.pc.m))
    case Receive => AfterDispatch(th, th.pc.c, th.pc.m, Received(s.waiters[th.pc.w].chan.value))
    case ContextEnds(e) => Leaving(th.pc.c, th.pc.m, th.pc.w, e)
    case RemoveOnLeave => AfterDispatch(th, th.pc.c, th.pc.m, Err(th.pc.why))
  }

  function DeliveryPc(p: Params, s: State, th: Thread, v: DeliveryAction): PC
    requires DeliveryEnabled(s, th.pc, v)
  {
    match v
    case PoisonSwap => AfterSwap(s, th.pc)
    case PoisonSend(w) => Sending(th.pc.c, th.pc.e, th.pc.drained - {w}, th.pc.after)
    case PoisonDone => AfterKill(th, th.pc.c, th.pc.after)
    case ReadFrame(body) => AfterBody(th.pc.c, Decision(p, s, th.pc.c, body))
    case ReadFails(e) => Kill(th.pc.c, e, AfterReading)
    case DeliverResponse => Reading(th.pc.c)
    case CountDrop => Reading(th.pc.c)
  }

  /** The poisoner goes on with what was pending. */
  function AfterSwap(s: State, pc: PC): PC
    requires pc.Kill?
  {
    Sending(pc.c, pc.e, if pc.c < |s.conns| then Drained(s.conns[pc.c].table) else {}, pc.after)
  }

  function Decision(p: Params, s: State, c: nat, body: Octets): Action {
    OnBody(p, if c < |s.conns| then s.conns[c].table else FRESH, body)
  }

  function AfterBody(c: nat, a: Action): PC {
    match a
    case Refuse(e) => Kill(c, e, AfterReading)
    case Push => Reading(c)
    case Unmatched => Dropping(c)
    case Match(w, resp) => Delivering(c, w, resp)
  }

  function LiveThread(p: Params, s: State, th: Thread, l: LiveAction): Thread
    requires LiveEnabled(s, th.pc, l)
  {
    var pc := LivePc(p, s, th, l);
    if l.SpendBudget? && th.budget > 0 then
      th.(pc := pc, budget := th.budget - 1, establishes := th.establishes + 1)
    else if l.InstallConn? then th.(pc := pc, own := th.own + 1)
    else th.(pc := pc)
  }

  function DispatchThread(s: State, th: Thread, d: DispatchAction): Thread
    requires DispatchEnabled(s, th.pc, d)
  {
    var pc := DispatchPc(s, th, d);
    if d.AllocId? && th.pc.m == User then th.(pc := pc, tried := th.tried + [th.pc.c])
    else if d.WriteSucceeds? && th.pc.m == User then th.(pc := pc, writes := th.writes + 1)
    else th.(pc := pc)
  }

  function NewReader(c: nat): Thread {
    Thread(Reader, Reading(c), Command([], []), 0, [], 0, 0, 0, 0, false)
  }

  function NewCaller(s: State, cmd: Command): Thread {
    Thread(Caller, if s.gateClosed then Done(Err(ConnectionClosed)) else AcqWait, cmd, REDIALS, [], 0, 0,
           |s.installed|, 0, s.gateClosed)
  }

  const NEW_CLOSER := Thread(Closer, CloseGate, Command([], []), 0, [], 0, 0, 0, 0, false)

  /** The connections after a step of liveConn or establish. */
  function LiveConns(p: Params, s: State, t: nat, l: LiveAction): seq<Conn>
    requires At(s, t) && LiveEnabled(s, Pc(s, t), l)
  {
    var pc := Pc(s, t);
    match l
    case DialSucceeds => s.conns + [Conn(FRESH, t, None, [], false, None, None)]
    case GreetNext =>
      if pc.k >= |Frames(p)| && pc.c < |s.conns| then s.conns[pc.c := s.conns[pc.c].(greeted := true)] else s.conns
    case StoreInfo =>
      if pc.c < |s.conns| then s.conns[pc.c := s.conns[pc.c].(info := Some(pc.learned))] else s.conns
    case InstallConn =>
      if pc.c < |s.conns| then s.conns[pc.c := s.conns[pc.c].(ordinal := Some(|s.installed|))] else s.conns
    case _ => s.conns
  }

  // --- what a step does ---

  function Apply(p: Params, s: State, st: Step): State
    requires Enabled(p, s, st)
  {
    match st
    case BeginCall(cmd) => DoBeginCall(s, cmd)
    case BeginClose => DoBeginClose(s)
    case Gate(t, g) => ApplyGate(p, s, t, g)
    case Live(t, l) => ApplyLive(p, s, t, l)
    case Dispatch(t, d) => ApplyDispatch(p, s, t, d)
    case Delivery(t, v) => ApplyDelivery(p, s, t, v)
  }

  function ApplyGate(p: Params, s: State, t: nat, g: GateAction): State
    requires At(s, t) && GateEnabled(p, s, Pc(s, t), g)
  {
    var next := Move(s, t, GatePc(s, Pc(s, t), g));
    match g
    case AcqTake => WithGate(next, Permits.Entered(GateOf(s)))
    case AcqGiveBack => WithGate(next, Permits.Left(GateOf(s)))
    case ReleasePermit => WithGate(next, Permits.Left(GateOf(s)))
    case ShutGate => WithGate(next, Permits.Shut(GateOf(s)))
    case TakeConn => next.(current := None)
    case _ => next
  }

  function ApplyLive(p: Params, s: State, t: nat, l: LiveAction): State
    requires At(s, t) && LiveEnabled(s, Pc(s, t), l)
  {
    var next := s.(threads := s.threads[t := LiveThread(p, s, s.threads[t], l)], conns := LiveConns(p, s, t, l));
    match l
    case Lock => next.(redialer := Some(t))
    case SpendBudget => next.(dials := if s.threads[t].budget > 0 then s.dials + 1 else s.dials)
    case DialSucceeds => next.(threads := next.threads + [NewReader(|s.conns|)])
    case StoreInfo => next.(info := Pc(s, t).learned)
    case InstallConn => next.(current := Some(Pc(s, t).c), installed := s.installed + [Pc(s, t).c])
    case UnlockRedial => next.(redialer := None)
    case _ => next
  }

  function ApplyDispatch(p: Params, s: State, t: nat, d: DispatchAction): State
    requires At(s, t) && DispatchEnabled(s, Pc(s, t), d)
  {
    match d
    case AllocId => DoAllocId(s, t)
    case RegisterWaiter => DoRegister(s, t)
    case WriteSucceeds => DoWriteSucceeds(p, s, t)
    case RemoveAfterWrite => DoRemove(s, t, d)
    case Receive => DoReceive(s, t)
    case RemoveOnLeave => DoRemove(s, t, d)
    case _ => Move(s, t, DispatchPc(s, s.threads[t], d))
  }

  function ApplyDelivery(p: Params, s: State, t: nat, v: DeliveryAction): State
    requires At(s, t) && DeliveryEnabled(s, Pc(s, t), v)
  {
    var pc := DeliveryPc(p, s, s.threads[t], v);
    match v
    case PoisonSwap => DoPoisonSwap(s, t)
    case PoisonSend(w) => Move(Send(s, w, Failed(Pc(s, t).e)), t, pc)
    case ReadFrame(body) => Act(s, t, Decision(p, s, Pc(s, t).c, body))
    case DeliverResponse => Move(Send(s, Pc(s, t).w, Got(Pc(s, t).resp, Pc(s, t).c)), t, pc)
    case CountDrop => Move(s.(drops := s.drops + 1), t, pc)
    case _ => Move(s, t, pc)
  }

  /** The first select of acquire: a closed gate refuses at once. */
  function DoBeginCall(s: State, cmd: Command): State {
    s.(begun := s.begun + 1, threads := s.threads + [NewCaller(s, cmd)])
  }

  function DoBeginClose(s: State): State {
    s.(closed := true, threads := s.threads + [NEW_CLOSER])
  }

  /** The start of a dispatch: a caller's own dispatch is entered in its history. */
  function DoAllocId(s: State, t: nat): State
    requires At(s, t) && Pc(s, t).Alloc?
  {
    s.(allocs := s.allocs + [t], nextID := Ids.Alloc(s.nextID).1,
       threads := s.threads[t := DispatchThread(s, s.threads[t], AllocId)])
  }

  function DoRegister(s: State, t: nat): State
    requires At(s, t) && Pc(s, t).Register?
  {
    var Register(c, m, id, no) := Pc(s, t);
    var table := if c < |s.conns| then Registered(s.conns[c].table, id, |s.waiters|) else None;
    var pc := DispatchPc(s, s.threads[t], RegisterWaiter);
    match table
    case None => Move(s, t, pc)
    case Some(next) =>
      var s' := WithTable(Forget(s, c, id), c, next);
      Move(s'.(waiters := s'.waiters + [Waiter(c, id, no, t, None, [], InTable)]), t, pc)
  }

  /** The request the thread's dispatch carries. */
  function RequestOf(p: Params, s: State, t: nat): Request
    requires At(s, t) && Pc(s, t).Writing?
  {
    var Writing(_, m, w) := Pc(s, t);
    var cmd := if m.Opening? && m.k < |Frames(p)| then Frames(p)[m.k] else s.threads[t].cmd;
    Request(if w < |s.waiters| then s.waiters[w].id else 0, cmd.name, cmd.args)
  }

  function DoWriteSucceeds(p: Params, s: State, t: nat): State
    requires At(s, t) && Pc(s, t).Writing?
  {
    var Writing(c, m, w) := Pc(s, t);
    var conns := if c < |s.conns|
      then s.conns[c := s.conns[c].(written := s.conns[c].written + [Written(m, t, RequestOf(p, s, t))])]
      else s.conns;
    s.(conns := conns, threads := s.threads[t := DispatchThread(s, s.threads[t], WriteSucceeds)])
  }

  /** A caller that gives up deletes its id first. */
  function DoRemove(s: State, t: nat, d: DispatchAction): State
    requires At(s, t) && DispatchEnabled(s, Pc(s, t), d) && (d.RemoveAfterWrite? || d.RemoveOnLeave?)
  {
    Move(DoForget(s, Pc(s, t).c, Pc(s, t).w), t, DispatchPc(s, s.threads[t], d))
  }

  /** delete(pending, id) for the id of waiter w. */
  function DoForget(s: State, c: nat, w: nat): State {
    if w < |s.waiters| then Forget(s, c, s.waiters[w].id) else s
  }

  function DoReceive(s: State, t: nat): State
    requires At(s, t) && Pc(s, t).Awaiting? && Pc(s, t).w < |s.waiters| && s.waiters[Pc(s, t).w].chan.Some?
  {
    var w := Pc(s, t).w;
    Move(s.(waiters := s.waiters[w := s.waiters[w].(chan := None)]), t, DispatchPc(s, s.threads[t], Receive))
  }

  function Received(d: Message): Outcome {
    match d
    case Got(resp, _) => Answer(resp)
    case Failed(e) => Err(e)
  }

  /** The critical section of poison: flag down, table swapped out, its waiters in this thread's hands. */
  function DoPoisonSwap(s: State, t: nat): State
    requires At(s, t) && Pc(s, t).Kill?
  {
    var c := Pc(s, t).c;
    if c < |s.conns| then
      Move(s.(conns := s.conns[c := PoisonedConn(s.conns[c], Pc(s, t).e)],
              waiters := HoldAll(s.waiters, Drained(s.conns[c].table), t)),
           t, AfterSwap(s, Pc(s, t)))
    else Move(s, t, AfterSwap(s, Pc(s, t)))
  }

  /** Dead and empty; the first error stands. */
  function PoisonedConn(x: Conn, e: Err): Conn {
    x.(table := Poisoned(x.table), error := if x.error.None? then Some(e) else x.error)
  }

  function HoldAll(ws: seq<Waiter>, drained: set<nat>, t: nat): (r: seq<Waiter>)
    ensures |r| == |ws|
    ensures forall i :: 0 <= i < |ws| ==> r[i] == if i in drained then ws[i].(place := Held(t)) else ws[i]
  {
    seq(|ws|, i requires 0 <= i < |ws| => if i in drained then ws[i].(place := Held(t)) else ws[i])
  }

  /** Decode and demux: the lookup and the removal are one critical section. */
  function Act(s: State, t: nat, a: Action): State
    requires At(s, t) && Pc(s, t).Reading?
  {
    var c := Pc(s, t).c;
    match a
    case Refuse(_) => Move(s, t, AfterBody(c, a))
    case Push => s
    case Unmatched => Move(s.(decoded := s.decoded + 1), t, AfterBody(c, a))
    case Match(w, resp) =>
      var s' := if c < |s.conns| then WithTable(s, c, Removed(s.conns[c].table, resp.id)) else s;
      Move(WithPlace(s', w, Held(t)).(decoded := s.decoded + 1, taken := s.taken + 1), t, AfterBody(c, a))
  }

  // --- runs ---

  ghost predicate Next(p: Params, s: State, s': State) {
    exists st :: Enabled(p, s, st) && Apply(p, s, st) == s'
  }

  /** A run: states one step apart, from the start of Connect. */
  ghost predicate IsRun(p: Params, run: seq<State>) {
    && |run| > 0 && run[0] == Init()
    && forall i :: 0 <= i < |run| - 1 ==> Next(p, run[i], run[i + 1])
  }

  ghost predicate Reachable(p: Params, s: State) {
    exists run :: IsRun(p, run) && run[|run| - 1] == s
  }
}
