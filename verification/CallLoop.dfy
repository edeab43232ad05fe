/**
 The code of one call (client/client.go, CallWithTimeout, liveConn, establish)
 against a world that acts at every point where the call touches it: connections
 die, Close comes, other callers install connections, dials fail, writes fail,
 answers arrive. A script that nothing restricts says what the world does.
 */
module CallLoop {
  import opened Wrappers
  import opened Values
  import opened ClientTypes
  import opened Client

  // Milliseconds.
  const BACKOFF_BASE := 50
  const BACKOFF_CAP := 500

  datatype Reply = Succeeds(v: Value) | Fails(e: Err)

  /** What the world does at one point: who dies, whether Close runs, how many
      connections other callers install, how the operation ends. */
  datatype Event = Event(dies: set<nat>, closes: bool, joins: nat, reply: Reply)

  const SILENCE := Event({}, false, 0, Fails(ConnectionError))

  class World {
    var closed: bool
    var alive: seq<bool>            // by connection
    var current: Option<nat>
    var script: seq<Event>

    var establishes: nat            // attempts so far
    var joined: nat                 // connections installed by other callers
    var dispatched: seq<nat>        // the connection of each dispatch
    var pauses: seq<nat>            // sleeps between attempts
    var last: Reply                 // how the latest operation ended

    ghost predicate Valid() reads this { current.Some? ==> current.value < |alive| }

    constructor (alive: seq<bool>, current: Option<nat>, closed: bool, script: seq<Event>)
      requires current.Some? ==> current.value < |alive|
      ensures Valid() && establishes == 0 && joined == 0 && dispatched == [] && pauses == []
      ensures (this.alive, this.current, this.closed, this.script) == (alive, current, closed, script)
    {
      this.alive, this.current, this.closed, this.script := alive, current, closed, script;
      establishes, joined, dispatched, pauses, last := 0, 0, [], [], Fails(ConnectionError);
    }

    /** The world moves: what is dead stays dead, and the call itself learns the reply.
        Nobody else installs a connection while the call holds the re-dial lock. */
    method Meanwhile(locked: bool) returns (reply: Reply)
      requires Valid()
      modifies `script, `alive, `closed, `current, `joined, `last
      ensures Valid() && |alive| - old(|alive|) == joined - old(joined) >= 0
      ensures forall c :: 0 <= c < old(|alive|) && alive[c] ==> old(alive)[c]
      ensures (old(closed) ==> closed) && (locked || old(closed) || old(script) == [] ==> joined == old(joined))
      ensures if joined > old(joined) then current == Some(|alive| - 1) else current == old(current) || current == None
      ensures |script| == if old(script) == [] then 0 else old(|script|) - 1
      ensures last == reply == if old(script) == [] then Fails(ConnectionError) else old(script)[0].reply
    {
      var ev := if script == [] then SILENCE else script[0];
      script := if script == [] then [] else script[1..];
      var shut := if ev.closes && current.Some? then {current.value} else {};
      alive := seq(|alive|, c requires 0 <= c < |alive| reads this => alive[c] && c !in ev.dies && c !in shut);
      if ev.closes { closed, current := true, None; }
      if ev.joins > 0 && !locked && !closed {
        var n := |alive|;
        joined := joined + ev.joins;
        alive := alive + seq(ev.joins, i => n + i !in ev.dies);
        current := Some(|alive| - 1);
      }
      reply := ev.reply;
      last := reply;
    }

    /** Dial, and the handshake. */
    method Establish() returns (r: Result<nat, Err>)
      requires Valid()
      modifies `script, `alive, `closed, `current, `joined, `establishes, `last
      ensures Valid() && establishes == old(establishes) + 1 && joined == old(joined) && |script| <= old(|script|)
      ensures r.Ok? ==> r.value == old(|alive|)
      ensures |alive| == old(|alive|) + (if r.Ok? then 1 else 0)
      ensures r.Err? ==> r.error != WriteFailed
      ensures forall c :: 0 <= c < old(|alive|) && alive[c] ==> old(alive)[c]
      ensures old(closed) ==> closed
      ensures current == old(current) || current == None
    {
      establishes := establishes + 1;
      var reply := Meanwhile(true);
      if reply.Fails? { return Err(AsHandshakeError(reply.e)); }
      r := Ok(|alive|);
      alive := alive + [true];
    }

    /** One attempt on one connection; a write failure leaves it dead. */
    method DispatchOnce(c: nat) returns (r: Outcome)
      requires Valid() && c < |alive|
      modifies `script, `alive, `closed, `current, `joined, `dispatched, `last
      ensures Valid() && dispatched == old(dispatched) + [c] && |alive| - old(|alive|) == joined - old(joined) >= 0
      ensures forall d :: 0 <= d < old(|alive|) && alive[d] ==> old(alive)[d]
      ensures r == Err(WriteFailed) ==> !alive[c]
      ensures old(closed) ==> closed
      ensures current == old(current) || current == None || (current.Some? && old(|alive|) <= current.value)
      ensures |script| <= old(|script|) && (old(script) != [] ==> |script| < old(|script|))
      ensures old(script) == [] ==> joined == old(joined)
      ensures r != Err(WriteFailed) ==> last == match r case Ok(v) => Succeeds(v) case Err(e) => Fails(e)
    {
      dispatched := dispatched + [c];
      var _ := Meanwhile(false);
      if !alive[c] { return Err(WriteFailed); }
      var reply := Meanwhile(false);
      match reply {
        case Succeeds(v) => r := Ok(v);
        case Fails(WriteFailed) =>
          alive := alive[c := false];
          r := Err(WriteFailed);
        case Fails(e) => r := Err(e);
      }
    }

    /** The current connection if it is alive, or a new one within the budget. */
    method LiveConn(budget: nat) returns (r: Result<nat, Err>, left: nat)
      requires Valid() && budget <= REDIALS
      modifies `script, `alive, `closed, `current, `joined, `establishes, `pauses, `last
      ensures Valid() && left <= budget && establishes - old(establishes) == budget - left
      ensures |script| <= old(|script|) && joined >= old(joined) && (old(script) == [] ==> joined == old(joined))
      ensures |alive| - old(|alive|) <= (budget - left) + (joined - old(joined))
      ensures r.Ok? ==> r.value < |alive| && (current == Some(r.value) || current == None)
      ensures r.Ok? ==>
        if r.value < old(|alive|) then old(current) == Some(r.value) && old(alive)[r.value]
        else left < budget || joined > old(joined)
      ensures r.Err? ==> r.error != WriteFailed
      ensures old(|alive|) <= |alive|
      ensures forall c :: 0 <= c < old(|alive|) && alive[c] ==> old(alive)[c]
      ensures old(closed) ==> r == Err(ConnectionClosed) && left == budget
      ensures pauses == old(pauses) || (pauses == old(pauses) + [50] && budget == 2 && left == 0)
    {
      left := budget;
      if closed { return Err(ConnectionClosed), left; }
      if current.Some? && alive[current.value] { return Ok(current.value), left; }
      // waiting for the re-dial lock
      var _ := Meanwhile(false);
      if closed { return Err(ConnectionClosed), left; }
      if current.Some? && alive[current.value] { return Ok(current.value), left; }
      ghost var n, j := |alive|, joined;
      var lastErr := ConnectionError;
      var backoff := BACKOFF_BASE;
      while left > 0
        invariant Valid() && 0 <= left <= budget && establishes - old(establishes) == budget - left
        invariant lastErr != WriteFailed && |alive| == n && joined == j && !old(closed) && |script| <= old(|script|)
        invariant forall c :: 0 <= c < old(|alive|) && alive[c] ==> old(alive)[c]
        invariant BACKOFF_BASE <= backoff <= BACKOFF_CAP
        invariant left == budget ==> backoff == BACKOFF_BASE && pauses == old(pauses)
        invariant 0 < left < budget ==> pauses == old(pauses) + [BACKOFF_BASE]
        invariant left == 0 ==> pauses == old(pauses) || (pauses == old(pauses) + [BACKOFF_BASE] && budget == REDIALS)
      {
        left := left - 1;
        var c := Establish();
        if c.Err? {
          if c.error == AuthError { return Err(AuthError), left; }
          lastErr := c.error;
          if left > 0 {
            pauses := pauses + [backoff];
            backoff := if 2 * backoff > BACKOFF_CAP then BACKOFF_CAP else 2 * backoff;
          }
        } else {
          current := Some(c.value);
          return Ok(c.value), left;
        }
      }
      r := Err(lastErr);
    }

    /** What the dispatches so far look like; n connections were there before the call. */
    ghost predicate Climbing(n: nat) reads this {
      && (forall i :: 0 < i < |dispatched| ==> dispatched[i - 1] < dispatched[i])
      && (dispatched != [] ==>
            |dispatched| <= (if dispatched[|dispatched| - 1] < n then 1 else 2 + dispatched[|dispatched| - 1] - n))
    }

    /** Between two rounds of the resend loop. */
    ghost predicate Looping(n: nat, budget: nat) reads this {
      && Valid() && budget <= REDIALS && establishes == REDIALS - budget && n <= |alive| <= n + establishes + joined
      && Climbing(n)
      && (forall i :: 0 <= i < |dispatched| ==> dispatched[i] < |alive| && !alive[dispatched[i]])
      && (pauses == [] || (pauses == [BACKOFF_BASE] && budget == 0))
      && (dispatched != [] && current.Some? && alive[current.value] ==>
            dispatched[|dispatched| - 1] < current.value && n <= current.value)
    }

    /** There is a connection the call has not tried. */
    predicate Fresh() reads this
      requires Valid()
    {
      dispatched == [] || (current.Some? && alive[current.value])
    }

    /** After the last round. */
    ghost predicate Over(n: nat) reads this {
      && Valid() && establishes <= REDIALS && n <= |alive| <= n + establishes + joined && Climbing(n)
      && (forall i :: 0 <= i < |dispatched| - 1 ==> dispatched[i] < |alive| && !alive[dispatched[i]])
      && (dispatched != [] ==> dispatched[|dispatched| - 1] < |alive|)
      && (pauses == [] || pauses == [BACKOFF_BASE])
    }

    /** Connection c is at hand for the next dispatch: newer than all tried. */
    ghost predicate Ready(n: nat, budget: nat, c: nat) reads this {
      && Looping(n, budget) && c < |alive| && (current == Some(c) || current == None)
      && (dispatched != [] ==> dispatched[|dispatched| - 1] < c && n <= c)
    }

    /** The first half of a round. */
    method NextConn(budget: nat, ghost n: nat) returns (r: Result<nat, Err>, left: nat)
      requires Looping(n, budget)
      modifies `script, `alive, `closed, `current, `joined, `establishes, `pauses, `last
      ensures left <= budget && (if r.Ok? then Ready(n, left, r.value) else Over(n) && r.error != WriteFailed)
      ensures |script| <= old(|script|) && (r.Ok? && old(script) == [] ==> left < budget || old(Fresh()))
      ensures old(closed) ==> r == Err(ConnectionClosed) && left == budget && establishes == old(establishes)
    {
      r, left := LiveConn(budget);
    }

    /** The second half: an attempt on the connection. */
    method Attempt(c: nat, budget: nat, ghost n: nat) returns (r: Outcome)
      requires Ready(n, budget, c)
      modifies `script, `alive, `closed, `current, `joined, `dispatched, `last
      ensures dispatched != [] && Over(n) && (r == Err(WriteFailed) ==> Looping(n, budget))
      ensures |script| <= old(|script|) && (old(script) != [] ==> |script| < old(|script|))
      ensures r == Err(WriteFailed) && old(script) == [] ==> !Fresh()
      ensures r.Ok? ==> last == Succeeds(r.value)
    {
      r := DispatchOnce(c);
    }

    /** The resend loop. It ends on every script: ever newer connections are tried, all
        but the last tried are dead, two establish attempts at most, one dispatch more
        than connections that came up meanwhile, one sleep at most, and the
        write-failure marker never comes out. */
    method CallWithTimeout() returns (r: Outcome)
      requires Valid() && dispatched == [] && establishes == 0 && joined == 0 && pauses == []
      modifies this
      ensures Valid() && establishes <= 2 && |dispatched| <= 1 + establishes + joined
      ensures forall i :: 0 < i < |dispatched| ==> dispatched[i - 1] < dispatched[i]
      ensures forall i :: 0 <= i < |dispatched| - 1 ==> dispatched[i] < |alive| && !alive[dispatched[i]]
      ensures r != Err(WriteFailed) && (r.Ok? ==> dispatched != [] && last == Succeeds(r.value))
      ensures old(closed) ==> r == Err(ConnectionClosed) && dispatched == [] && establishes == 0
      ensures pauses == [] || pauses == [50]
    {
      var budget: nat := REDIALS;
      ghost var n := |alive|;
      while true
        invariant Looping(n, budget) && (old(closed) ==> closed && dispatched == [] && establishes == 0)
        decreases |script|, budget, Fresh()
      {
        var c;
        c, budget := NextConn(budget, n);
        if c.Err? { return Err(c.error); }
        r := Attempt(c.value, budget, n);
        if r == Err(WriteFailed) {
          if budget == 0 { return Err(ConnectionError); }
        } else {
          return r;
        }
      }
    }
  }
}
