/**
 Close does not always leave the client dead: a re-dial that is past the second
 look at the closed flag installs its connection after Close has returned. The
 run below does so; ClientRuns.CloseShutsEverything gives the condition that excludes it.
 */
module CloseRace {
  import opened Wrappers
  import opened Values
  import opened ClientTypes
  import opened ConnTable
  import opened Client
  import opened ClientRuns
  import Codec
  import Handshake

  function Plain(floats: Codec.Floats): Params {
    Params(1, Handshake.Settings(Handshake.NoHandshake, false, None, []), false, floats)
  }

  const CMD := Command([], [])

  function Link(opener: nat, ordinal: nat): Conn {
    Conn(FRESH, opener, None, [], true, Some(Handshake.BLANK), Some(ordinal))
  }

  const DEAD: Conn := Conn(Table(false, map[]), 0, Some(ConnectionError), [], true, Some(Handshake.BLANK), Some(0))

  const CONNECTOR := Thread(Connector, Done(Ok(Null)), CMD, 0, [], 0, 1, 0, 1, false)
  const READER := Thread(Reader, Done(Ok(Null)), CMD, 0, [], 0, 0, 0, 0, false)
  const CLOSER := Thread(Closer, Done(Ok(Null)), CMD, 0, [], 0, 0, 0, 0, false)

  function Redialing(pc: PC): Thread { Thread(Caller, pc, CMD, 2, [], 0, 0, 1, 0, false) }

  /** Connect has returned. */
  const CONNECTED: State :=
    State(1, 0, false, false, Some(0), None, Handshake.BLANK, [Link(0, 0)], [],
          [CONNECTOR, READER.(pc := Reading(0))], 0, [], [0], 0, 0, 0, 0)

  /** The connection was lost. */
  const LOST: State := CONNECTED.(conns := [DEAD], threads := [CONNECTOR, READER])

  /** A call holds the re-dial lock and has looked at the closed flag twice. */
  const PAST: State :=
    LOST.(permits := 1, redialer := Some(2), begun := 1, threads := [CONNECTOR, READER, Redialing(ReRead)])

  /** Close has come and gone. */
  const CLOSED: State :=
    PAST.(gateClosed := true, closed := true, current := None,
          threads := [CONNECTOR, READER, Redialing(ReRead), CLOSER])

  /** The handshake of the first connection is done. */
  const STORED: State :=
    CONNECTED.(current := None, redialer := Some(0), installed := [],
               conns := [Link(0, 0).(ordinal := None)],
               threads := [CONNECTOR.(pc := Install(0), own := 0), READER.(pc := Reading(0))])

  lemma Greets(floats: Codec.Floats) returns (run: seq<State>)
    ensures IsRun(Plain(floats), run) && run[|run| - 1] == STORED
  {
    var p := Plain(floats);
    run := [Init()];
    run := Extend(p, run, Live(0, DialSucceeds));
    run := Extend(p, run, Live(0, GreetNext));
    run := Extend(p, run, Live(0, StoreInfo));
    assert run[|run| - 1] == STORED;
  }

  lemma Connects(floats: Codec.Floats) returns (run: seq<State>)
    ensures IsRun(Plain(floats), run) && run[|run| - 1] == CONNECTED
  {
    hide IsRun;
    var p := Plain(floats);
    run := Greets(floats);
    run := Extend(p, run, Live(0, InstallConn));
    run := Extend(p, run, Live(0, UnlockRedial));
    assert run[|run| - 1] == CONNECTED;
  }

  lemma Loses(p: Params, start: seq<State>) returns (run: seq<State>)
    requires IsRun(p, start) && start[|start| - 1] == CONNECTED
    ensures IsRun(p, run) && run[|run| - 1] == LOST
  {
    hide IsRun;
    run := Extend(p, start, Delivery(1, ReadFails(ConnectionError)));
    run := Extend(p, run, Delivery(1, PoisonSwap));
    assert Pc(run[|run| - 1], 1).drained == {};
    run := Extend(p, run, Delivery(1, PoisonDone));
    assert run[|run| - 1] == LOST;
  }

  const WAITING: State :=
    LOST.(permits := 1, begun := 1, threads := [CONNECTOR, READER, Redialing(ReadConn)])

  lemma Calls(p: Params, start: seq<State>) returns (run: seq<State>)
    requires IsRun(p, start) && start[|start| - 1] == LOST && Bound(p) == 1
    ensures IsRun(p, run) && run[|run| - 1] == WAITING
  {
    hide IsRun;
    run := Extend(p, start, BeginCall(CMD));
    run := Extend(p, run, Gate(2, AcqTake));
    run := Extend(p, run, Gate(2, AcqDecide));
    run := Extend(p, run, Live(2, CheckClosed));
    assert run[|run| - 1] == WAITING;
  }

  lemma Locks(p: Params, start: seq<State>) returns (run: seq<State>)
    requires IsRun(p, start) && start[|start| - 1] == WAITING
    ensures IsRun(p, run) && run[|run| - 1] == PAST
  {
    hide IsRun;
    run := Extend(p, start, Live(2, LoadConn));
    run := Extend(p, run, Live(2, DecideAlive));
    run := Extend(p, run, Live(2, Lock));
    run := Extend(p, run, Live(2, CheckClosedAgain));
    assert run[|run| - 1] == PAST;
  }

  const KILLING: State :=
    CLOSED.(threads := [CONNECTOR, READER, Redialing(ReRead), CLOSER.(pc := Kill(0, ConnectionClosed, AfterClosing))])

  lemma Closes(p: Params, start: seq<State>) returns (run: seq<State>)
    requires IsRun(p, start) && start[|start| - 1] == PAST
    ensures IsRun(p, run) && run[|run| - 1] == KILLING
  {
    hide IsRun;
    run := Extend(p, start, BeginClose);
    run := Extend(p, run, Gate(3, ShutGate));
    run := Extend(p, run, Gate(3, TakeConn));
    assert run[|run| - 1] == KILLING;
  }

  lemma Kills(p: Params, start: seq<State>) returns (run: seq<State>)
    requires IsRun(p, start) && start[|start| - 1] == KILLING
    ensures IsRun(p, run) && run[|run| - 1] == CLOSED
  {
    hide IsRun;
    run := Extend(p, start, Delivery(3, PoisonSwap));
    assert Pc(run[|run| - 1], 3).drained == {};
    run := Extend(p, run, Delivery(3, PoisonDone));
    assert run[|run| - 1] == CLOSED;
  }

  const DIALING: State :=
    CLOSED.(dials := 1, threads := [CONNECTOR, READER, Redialing(Dialing).(budget := 1, establishes := 1), CLOSER])

  lemma FindsNone(p: Params, start: seq<State>) returns (run: seq<State>)
    requires IsRun(p, start) && start[|start| - 1] == CLOSED
    ensures IsRun(p, run) && run[|run| - 1] == DIALING
  {
    hide IsRun;
    run := Extend(p, start, Live(2, LoadConnAgain));
    run := Extend(p, run, Live(2, DecideAliveAgain));
    run := Extend(p, run, Live(2, SpendBudget));
    assert run[|run| - 1] == DIALING;
  }

  lemma Dials(floats: Codec.Floats, start: seq<State>) returns (run: seq<State>)
    requires IsRun(Plain(floats), start) && start[|start| - 1] == DIALING
    ensures IsRun(Plain(floats), run) && run[|run| - 1] == GREETED
  {
    hide IsRun;
    var p := Plain(floats);
    run := Extend(p, start, Live(2, DialSucceeds));
    run := Extend(p, run, Live(2, GreetNext));
    assert run[|run| - 1] == GREETED;
  }

  const GREETED: State :=
    DIALING.(conns := [DEAD, Link(2, 1).(info := None, ordinal := None)],
             threads := [CONNECTOR, READER, Redialing(SetInfo(1, Handshake.BLANK)).(budget := 1, establishes := 1), CLOSER,
                         READER.(pc := Reading(1))])

  lemma Installs(p: Params, start: seq<State>) returns (run: seq<State>)
    requires IsRun(p, start) && start[|start| - 1] == GREETED
    ensures IsRun(p, run)
    ensures var s := run[|run| - 1]; s.closed && s.current == Some(1) && Alive(s, 1) && ClosersDone(s)
  {
    hide IsRun;
    run := Extend(p, start, Live(2, StoreInfo));
    run := Extend(p, run, Live(2, InstallConn));
  }

  /** Every Close has returned, and yet a connection is installed and alive. */
  lemma AliveAfterClose(floats: Codec.Floats)
    ensures exists s: State ::
      (Reachable(Plain(floats), s) && s.closed && ClosersDone(s) && s.current == Some(1) && Alive(s, 1))
  {
    hide Init, Next, ClosersDone;
    var p := Plain(floats);
    var run := Connects(floats);
    run := Loses(p, run);
    run := Calls(p, run);
    run := Locks(p, run);
    run := Closes(p, run);
    run := Kills(p, run);
    run := FindsNone(p, run);
    run := Dials(floats, run);
    run := Installs(p, run);
    assert Reachable(p, run[|run| - 1]);
  }
}
