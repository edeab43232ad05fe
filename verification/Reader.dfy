/**
 The reader of a connection (client/client.go, readerLoop) as code: it reads
 frames off the socket, reacts to each body, and kills the connection when a
 frame fails. What it reads are the bodies TrySplitFrame would split off. While
 it reads, other threads change the pending table as a script says.
 */
module Reader {
  import opened Wrappers
  import opened MsgPack
  import opened Values
  import opened ClientTypes
  import opened ConnTable
  import Client
  import Codec
  import CodecMachine
  import CodecRoundTrip
  import Frame

  /** What the reader has done so far: the table it left, the responses it sent to
      waiters, the drops it counted, the pushes it handed to the hook. */
  datatype Report = Report(table: Table, delivered: seq<(nat, Response)>, drops: nat, pushes: seq<Value>)

  datatype Log = Log(delivered: seq<(nat, Response)>, drops: nat, pushes: seq<Value>)

  /** What another thread does to the table: register, give up, or poison. */
  datatype Edit = Enter(id: u32, w: nat) | Leave(id: u32) | Die

  function EditedOnce(t: Table, e: Edit): Table {
    match e
    case Enter(id, w) => (match Registered(t, id, w) case None => t case Some(next) => next)
    case Leave(id) => Removed(t, id)
    case Die => Poisoned(t)
  }

  function Edited(t: Table, es: seq<Edit>): Table
    decreases |es|
  {
    if es == [] then t else Edited(EditedOnce(t, es[0]), es[1..])
  }

  /** A script holds the edits before each reaction of the reader; in the end nobody else acts. */
  function Now(others: seq<seq<Edit>>): seq<Edit> { if others == [] then [] else others[0] }

  function Later(others: seq<seq<Edit>>): seq<seq<Edit>> { if others == [] then [] else others[1..] }

  /** The reaction to one body, by the decision the running client takes. */
  function Handle(p: Client.Params, r: Report, body: Octets): Result<Report, Err> {
    match Client.OnBody(p, r.table, body)
    case Refuse(e) => Err(e)
    case Push => Ok(r.(pushes := r.pushes + Pushed(p, body)))
    case Unmatched => Ok(r.(drops := r.drops + 1))
    case Match(w, resp) => Ok(r.(table := Removed(r.table, resp.id), delivered := r.delivered + [(w, resp)]))
  }

  /** The waiter registered under the id of a response leaves the table with it. */
  function Delivered(r: Report, resp: Response): Report
    requires resp.id in r.table.pending
  {
    r.(table := Removed(r.table, resp.id), delivered := r.delivered + [(r.table.pending[resp.id], resp)])
  }

  /** The hook sees the value of a successful push. */
  function Pushed(p: Client.Params, body: Octets): seq<Value> {
    match Codec.DecodeResponseBody(p.floats, body)
    case Some(ResponseOk(_, v)) => [v]
    case _ => []
  }

  /** All bodies in order, up to the first that is refused, each after the edits of the others. */
  function HandleAll(p: Client.Params, r: Report, bodies: seq<Octets>, others: seq<seq<Edit>>): (Report, Option<Err>)
    decreases |bodies|
  {
    var now := r.(table := Edited(r.table, Now(others)));
    if bodies == [] then (now, None)
    else
      match Handle(p, now, bodies[0])
      case Err(e) => (now, Some(e))
      case Ok(next) => HandleAll(p, next, bodies[1..], Later(others))
  }

  /** What the reader makes of a whole input: its report and the error it dies with. */
  function Outcome(p: Client.Params, max: int, r: Report, input: Octets, others: seq<seq<Edit>>): (Report, Err) {
    var split := Frame.SplitAll(input, max);
    var (after, refused) := HandleAll(p, r, split.bodies, others);
    (after, if refused.Some? then refused.value else if split.overCap then FrameTooLargeError else ConnectionError)
  }

  /** The receiving half of a socket: bytes to come, and then the end of the stream. */
  class Socket {
    var incoming: Octets

    constructor (bytes: Octets)
      ensures incoming == bytes
    {
      incoming := bytes;
    }

    /** Exactly n bytes, or failure. */
    method ReadFull(n: nat) returns (r: Option<Octets>)
      modifies this
      ensures if |old(incoming)| >= n then r == Some(old(incoming)[..n]) && incoming == old(incoming)[n..]
              else r == None && incoming == []
    {
      if |incoming| < n {
        incoming := [];
        return None;
      }
      r := Some(incoming[..n]);
      incoming := incoming[n..];
    }
  }

  /** One frame off the socket. The cap is checked before the body is read: a refused
      frame costs the four bytes of its prefix, and is refused if they are all there is. */
  method ReadFrame(socket: Socket, max: int) returns (r: Result<Octets, Err>)
    modifies socket
    ensures match Frame.TrySplitFrame(old(socket.incoming), max)
      case Complete(body, consumed) => r == Ok(body) && socket.incoming == old(socket.incoming)[consumed..]
      case TooLarge(_, _) => r == Err(FrameTooLargeError) && socket.incoming == old(socket.incoming)[4..]
      case NeedMore => r == Err(ConnectionError)
    ensures r == Err(FrameTooLargeError)
      <==> |old(socket.incoming)| >= 4 && Frame.Declared(old(socket.incoming)) > max
  {
    hide Frame.FromLE32;
    Frame.SplitDecides(socket.incoming, max);
    ghost var input := socket.incoming;
    var header := socket.ReadFull(4);
    if header.None? { return Err(ConnectionError); }
    var length: nat := Frame.FromLE32(header.value);
    if length > max { return Err(FrameTooLargeError); }
    var body := socket.ReadFull(length);
    if body.None? { return Err(ConnectionError); }
    assert input[4..][..length] == input[4..4 + length];
    assert input[4..][length..] == input[4 + length..];
    r := Ok(body.value);
  }

  /** The reaction to one body; None is the error that ends the loop. */
  method React(p: Client.Params, core: ConnCore, body: Octets, log: Log) returns (r: Result<Log, Err>)
    modifies core
    ensures var handled := Handle(p, Report(old(core.View()), log.delivered, log.drops, log.pushes), body);
      && (r.Err? ==> handled == Err(r.error) && core.View() == old(core.View()))
      && (r.Ok? ==> handled == Ok(Report(core.View(), r.value.delivered, r.value.drops, r.value.pushes)))
  {
    hide Handle, Codec.DecodeResponseBody;
    HandleCases(p, Report(core.View(), log.delivered, log.drops, log.pushes), body);
    var resp := CodecMachine.RunDecodeResponseBody(p.floats, body);
    if resp.None? { return Err(DecodeError); }
    if resp.value.id == PUSH_ID {
      if !p.pushEnabled { return Err(DecodeError); }
      if resp.value.ResponseErr? { return Ok(log); }
      return Ok(log.(pushes := log.pushes + [resp.value.ok]));
    }
    var w := core.Take(resp.value.id);
    if w.None? {
      assert old(core.View()).pending - {resp.value.id} == old(core.View()).pending;
      return Ok(log.(drops := log.drops + 1));
    }
    r := Ok(log.(delivered := log.delivered + [(w.value, resp.value)]));
  }

  /** The other threads' critical sections between two of the reader's. */
  method Interfere(core: ConnCore, edits: seq<Edit>)
    modifies core
    ensures core.View() == Edited(old(core.View()), edits)
  {
    for i := 0 to |edits|
      invariant Edited(core.View(), edits[i..]) == Edited(old(core.View()), edits)
    {
      assert edits[i..][1..] == edits[i + 1..];
      match edits[i] {
        case Enter(id, w) => var _ := core.Register(id, w);
        case Leave(id) => core.Remove(id);
        case Die => var _ := core.Poison();
      }
    }
  }

  /** The loop, and the kill that ends it: what was still pending is drained. */
  method ReaderLoop(p: Client.Params, max: int, core: ConnCore, socket: Socket, others: seq<seq<Edit>>)
    returns (log: Log, loopErr: Err, drained: set<nat>)
    modifies core, socket
    ensures var (report, e) := Outcome(p, max, Report(old(core.View()), [], 0, []), old(socket.incoming), others);
      && log == Log(report.delivered, report.drops, report.pushes) && loopErr == e
      && drained == Drained(report.table) && core.View() == Poisoned(report.table)
  {
    hide Handle, Outcome, Frame.TrySplitFrame, Edited;
    log := Log([], 0, []);
    ghost var input := socket.incoming;
    var script := others;
    while true
      invariant Outcome(p, max, Report(old(core.View()), [], 0, []), input, others)
        == Outcome(p, max, Report(core.View(), log.delivered, log.drops, log.pushes), socket.incoming, script)
      decreases |socket.incoming|
    {
      OutcomeSteps(p, max, Report(core.View(), log.delivered, log.drops, log.pushes), socket.incoming, script);
      var frame := ReadFrame(socket, max);
      Interfere(core, Now(script));
      script := Later(script);
      if frame.Err? {
        loopErr := frame.error;
        break;
      }
      var next := React(p, core, frame.value, log);
      if next.Err? {
        loopErr := next.error;
        break;
      }
      log := next.value;
    }
    drained := core.Poison();
  }

  /** One round of the loop on the whole input. */
  lemma OutcomeSteps(p: Client.Params, max: int, r: Report, input: Octets, others: seq<seq<Edit>>)
    ensures var now := r.(table := Edited(r.table, Now(others)));
      match Frame.TrySplitFrame(input, max)
      case NeedMore => Outcome(p, max, r, input, others) == (now, ConnectionError)
      case TooLarge(_, _) => Outcome(p, max, r, input, others) == (now, FrameTooLargeError)
      case Complete(body, k) =>
        (match Handle(p, now, body)
         case Err(e) => Outcome(p, max, r, input, others) == (now, e)
         case Ok(next) => Outcome(p, max, r, input, others) == Outcome(p, max, next, input[k..], Later(others)))
  {
    hide Frame.TrySplitFrame, Handle, Edited;
    if Frame.TrySplitFrame(input, max).Complete? {
      var Complete(body, k) := Frame.TrySplitFrame(input, max);
      var tail := Frame.SplitAll(input[k..], max);
      assert ([body] + tail.bodies)[1..] == tail.bodies;
    }
  }

  lemma HandleCases(p: Client.Params, r: Report, body: Octets)
    ensures match Codec.DecodeResponseBody(p.floats, body)
      case None => Handle(p, r, body) == Err(DecodeError)
      case Some(resp) =>
        if resp.id == PUSH_ID && !p.pushEnabled then Handle(p, r, body) == Err(DecodeError)
        else if resp.id == PUSH_ID then
          Handle(p, r, body) == Ok(if resp.ResponseOk? then r.(pushes := r.pushes + [resp.ok]) else r)
        else if resp.id in r.table.pending then Handle(p, r, body) == Ok(Delivered(r, resp))
        else Handle(p, r, body) == Ok(r.(drops := r.drops + 1))
  {
    hide Codec.DecodeResponseBody, Removed;
    assert forall s: seq<Value> :: s + [] == s;
  }

  // --- from the server's responses to the waiters ---

  function Bodies(responses: seq<Response>): seq<Octets> {
    if responses == [] then [] else [Codec.EncodeResponse(responses[0])] + Bodies(responses[1..])
  }

  /** What each response should reach. */
  function Routed(t: Table, responses: seq<Response>): seq<(nat, Response)>
    requires forall r | r in responses :: r.id in t.pending
  {
    if responses == [] then [] else [(t.pending[responses[0].id], responses[0])] + Routed(t, responses[1..])
  }

  ghost predicate Distinct(responses: seq<Response>) {
    forall i, j | 0 <= i < j < |responses| :: responses[i].id != responses[j].id
  }

  function IdsOf(responses: seq<Response>): set<u32> { set r | r in responses :: r.id }

  /** Every response delivered to its waiter, and no other waiter touched. */
  function AllDelivered(r: Report, responses: seq<Response>): Report
    requires forall x | x in responses :: x.id in r.table.pending
  {
    Report(r.table.(pending := r.table.pending - IdsOf(responses)), r.delivered + Routed(r.table, responses), r.drops, r.pushes)
  }

  /** The responses of the server, in whatever order it answers, reach the waiters
      registered under their ids, bit for bit; nothing is dropped or mistaken. */
  lemma {:induction false} AnyOrderIsRouted(p: Client.Params, max: int, r: Report, responses: seq<Response>, t: Octets)
    requires Distinct(responses)
    requires forall x | x in responses :: x.id in r.table.pending && x.id != PUSH_ID
    requires forall x | x in responses :: ResponseFits(x) && Frame.Framable(Codec.EncodeResponse(x), max)
    ensures Outcome(p, max, r, Frame.Frames(Bodies(responses)) + t, []) == Outcome(p, max, AllDelivered(r, responses), t, [])
    decreases |responses|
  {
    hide Handle, Outcome, Frame.TrySplitFrame, Frame.FrameOf, Frame.Framable, ResponseFits, Codec.EncodeResponse;
    if responses == [] {
      assert Frame.Frames(Bodies(responses)) + t == t;
      assert AllDelivered(r, responses) == r by { NoneDelivered(r); }
    } else {
      hide AllDelivered, Delivered;
      FirstIsDelivered(p, max, r, responses, t);
      OthersStayPending(r, responses);
      AnyOrderIsRouted(p, max, Delivered(r, responses[0]), responses[1..], t);
      DeliveredOneByOne(r, responses);
    }
  }

  lemma NoneDelivered(r: Report)
    ensures AllDelivered(r, []) == r
  {
    assert r.table.pending - {} == r.table.pending;
    assert r.delivered + [] == r.delivered;
  }

  lemma OthersStayPending(r: Report, responses: seq<Response>)
    requires responses != [] && Distinct(responses) && forall x | x in responses :: x.id in r.table.pending
    ensures Distinct(responses[1..])
    ensures forall x | x in responses[1..] ::
      x in responses && x.id != responses[0].id && x.id in Delivered(r, responses[0]).table.pending
  {
  }

  lemma DeliveredOneByOne(r: Report, responses: seq<Response>)
    requires responses != [] && Distinct(responses) && forall x | x in responses :: x.id in r.table.pending
    requires forall x | x in responses[1..] :: x.id in Delivered(r, responses[0]).table.pending
    ensures AllDelivered(Delivered(r, responses[0]), responses[1..]) == AllDelivered(r, responses)
  {
    var x, next := responses[0], Delivered(r, responses[0]);
    OthersStayPending(r, responses);
    RoutingForgets(r.table, x.id, responses[1..]);
    assert next.delivered + Routed(next.table, responses[1..]) == r.delivered + Routed(r.table, responses);
    assert responses == [x] + responses[1..];
    assert IdsOf(responses) == {x.id} + IdsOf(responses[1..]);
    assert next.table.pending - IdsOf(responses[1..]) == r.table.pending - IdsOf(responses);
  }

  lemma FirstIsDelivered(p: Client.Params, max: int, r: Report, responses: seq<Response>, t: Octets)
    requires responses != [] && responses[0].id in r.table.pending && responses[0].id != PUSH_ID
    requires ResponseFits(responses[0]) && Frame.Framable(Codec.EncodeResponse(responses[0]), max)
    ensures Outcome(p, max, r, Frame.Frames(Bodies(responses)) + t, [])
      == Outcome(p, max, Delivered(r, responses[0]), Frame.Frames(Bodies(responses[1..])) + t, [])
  {
    hide Handle, Outcome, Frame.TrySplitFrame, Frame.FrameOf, ResponseFits, Codec.EncodeResponse;
    var x, body := responses[0], Codec.EncodeResponse(responses[0]);
    var rest := Frame.Frames(Bodies(responses[1..])) + t;
    assert Bodies(responses)[1..] == Bodies(responses[1..]);
    assert Frame.Frames(Bodies(responses)) + t == Frame.FrameOf(body) + rest;
    Frame.SplitFrame(body, max, rest);
    assert (Frame.FrameOf(body) + rest)[|Frame.FrameOf(body)|..] == rest;
    OutcomeSteps(p, max, r, Frame.FrameOf(body) + rest, []);
    assert Edited(r.table, Now([])) == r.table && Later([]) == [];
    CodecRoundTrip.ParseEncodedResponse(p.floats, x, []);
    assert body + [] == body;
    HandleCases(p, r, body);
  }

  lemma {:induction false} RoutingForgets(t: Table, id: u32, responses: seq<Response>)
    requires forall x | x in responses :: x.id in t.pending && x.id != id
    ensures Routed(Removed(t, id), responses) == Routed(t, responses)
    decreases |responses|
  {
    if responses != [] {
      assert responses == [responses[0]] + responses[1..];
      RoutingForgets(t, id, responses[1..]);
    }
  }

  // --- from the client's requests to the server ---

  function RequestBodies(written: seq<Client.Written>): seq<Octets> {
    if written == [] then [] else [Codec.EncodeRequest(written[0].req)] + RequestBodies(written[1..])
  }

  function DecodeRequests(fc: Codec.Floats, bodies: seq<Octets>): Option<seq<Request>> {
    if bodies == [] then Some([])
    else
      var head :- Codec.DecodeRequestBody(fc, bodies[0]);
      var tail :- DecodeRequests(fc, bodies[1..]);
      Some([head] + tail)
  }

  function RequestsOf(written: seq<Client.Written>): seq<Request> {
    if written == [] then [] else [written[0].req] + RequestsOf(written[1..])
  }

  /** A server that splits and decodes the bytes of a connection gets back the
      requests written on it, all of them and in order. */
  lemma ServerReadsWhatWasWritten(fc: Codec.Floats, written: seq<Client.Written>, max: int)
    requires forall f | f in written :: RequestFits(f.req) && Frame.Framable(Codec.EncodeRequest(f.req), max)
    ensures Frame.SplitAll(Frame.Frames(RequestBodies(written)), max) == Frame.Stream(RequestBodies(written), [], false)
    ensures DecodeRequests(fc, RequestBodies(written)) == Some(RequestsOf(written))
  {
    RequestsDecode(fc, written, max);
    Frame.SplitFrames(RequestBodies(written), max, []);
    assert Frame.Frames(RequestBodies(written)) + [] == Frame.Frames(RequestBodies(written));
    assert RequestBodies(written) + [] == RequestBodies(written);
  }

  lemma {:induction false} RequestsDecode(fc: Codec.Floats, written: seq<Client.Written>, max: int)
    requires forall f | f in written :: RequestFits(f.req) && Frame.Framable(Codec.EncodeRequest(f.req), max)
    ensures DecodeRequests(fc, RequestBodies(written)) == Some(RequestsOf(written))
    ensures forall b | b in RequestBodies(written) :: Frame.Framable(b, max)
  {
    hide Codec.EncodeRequest, RequestFits, Frame.Framable, Codec.ParseRequest;
    if written != [] {
      var req, body := written[0].req, Codec.EncodeRequest(written[0].req);
      assert written == [written[0]] + written[1..];
      RequestsDecode(fc, written[1..], max);
      CodecRoundTrip.ParseEncodedRequest(fc, req, []);
      assert body + [] == body;
      assert RequestBodies(written)[1..] == RequestBodies(written[1..]);
    }
  }
}
