/**
 Length-prefixed frames (wire/frame.go): a u32 little-endian length and a body,
 and the byte stream they make on a connection.
 */
module Frame {
  import opened MsgPack
  import opened Values
  import opened Codec
  import opened CodecMachine
  import CodecRoundTrip

  /** The low `w` bytes of n, least significant first. */
  function LE(n: nat, w: nat): (s: Octets)
    ensures |s| == w
  {
    if w == 0 then [] else [n % 256] + LE(n / 256, w - 1)
  }

  function FromLE(s: Octets): (n: nat)
    ensures n < Pow256(|s|)
  {
    if s == [] then 0 else s[0] + 256 * FromLE(s[1..])
  }

  lemma {:induction false} FromLEOfLE(n: nat, w: nat)
    requires n < Pow256(w)
    ensures FromLE(LE(n, w)) == n
  {
    if w > 0 {
      FromLEOfLE(n / 256, w - 1);
    }
  }

  lemma {:induction false} LEOfFromLE(s: Octets)
    ensures LE(FromLE(s), |s|) == s
  {
    hide Pow256;
    if s != [] {
      LEOfFromLE(s[1..]);
      assert FromLE(s) % 256 == s[0] && FromLE(s) / 256 == FromLE(s[1..]);
    }
  }

  function LE32(n: u32): (s: Octets)
    ensures |s| == 4
  {
    LE(n, 4)
  }

  function FromLE32(s: Octets): u32
    requires |s| == 4
  {
    Pow256Values();
    FromLE(s)
  }

  lemma LE32RoundTrip(n: u32, s: Octets)
    requires |s| == 4
    ensures FromLE32(LE32(n)) == n
    ensures LE32(FromLE32(s)) == s
  {
    Pow256Values();
    FromLEOfLE(n, 4);
    LEOfFromLE(s);
  }

  /** The prefix byte by byte, least significant first. */
  lemma LE32Bytes(a: byte, b: byte, c: byte, d: byte)
    ensures LE32(a + 0x100 * b + 0x1_0000 * c + 0x100_0000 * d) == [a, b, c, d]
    ensures FromLE32([a, b, c, d]) == a + 0x100 * b + 0x1_0000 * c + 0x100_0000 * d
  {
    LittleEndian(a, b, c, d);
    hide FromLE, LE;
    LEOfFromLE([a, b, c, d]);
  }

  lemma LittleEndian(a: byte, b: byte, c: byte, d: byte)
    ensures FromLE([a, b, c, d]) == a + 0x100 * b + 0x1_0000 * c + 0x100_0000 * d
  {
    assert FromLE([]) == 0;
    assert FromLE([d]) == d + 0x100 * FromLE([d][1..]) && [d][1..] == [];
    assert FromLE([c, d]) == c + 0x100 * FromLE([c, d][1..]) && [c, d][1..] == [d];
    assert FromLE([b, c, d]) == b + 0x100 * FromLE([b, c, d][1..]) && [b, c, d][1..] == [c, d];
    assert FromLE([a, b, c, d]) == a + 0x100 * FromLE([a, b, c, d][1..]) && [a, b, c, d][1..] == [b, c, d];
  }

  /** A body of 2^32 bytes or more would get a truncated prefix. */
  function FrameOf(body: Octets): Octets { LE32(|body| % 0x1_0000_0000) + body }

  /** One complete frame in a buffer of its own. */
  method EncodeFrame(m: Message) returns (frame: array?<byte>)
    ensures frame == null <==> m.OtherMessage?
    ensures frame != null ==> fresh(frame) && frame[..] == FrameOf(BodyOf(m).value)
  {
    hide BodyOf, LE32;
    var body := EncodeBody(m);
    if body.None? { return null; }
    var n := |body.value|;
    frame := new byte[4 + n];
    CopyInto(frame, 0, LE32(n % 0x1_0000_0000));
    CopyInto(frame, 4, body.value);
    assert frame[..] == frame[..4] + frame[4..];
  }

  /** Copies src over the array from position `at` on. */
  method CopyInto(a: array<byte>, at: nat, src: Octets)
    requires at + |src| <= a.Length
    modifies a
    ensures a[..] == old(a[..at]) + src + old(a[at + |src|..])
  {
    for i := 0 to |src|
      invariant forall k :: 0 <= k < i ==> a[at + k] == src[k]
      invariant forall k :: 0 <= k < at || at + i <= k < a.Length ==> a[k] == old(a[k])
    {
      a[at + i] := src[i];
    }
    assert a[at..at + |src|] == src;
  }

  datatype Split =
    | NeedMore
    | TooLarge(declared: nat, limit: int)
    | Complete(body: Octets, consumed: nat)

  /** One frame off the front; the cap is checked on the prefix, before the body is looked at. */
  function TrySplitFrame(buf: Octets, max: int): (r: Split)
    ensures r.Complete? ==> 4 <= r.consumed <= |buf|
  {
    if |buf| < 4 then NeedMore
    else
      var length := FromLE32(buf[..4]);
      if length > max then TooLarge(length, max)
      else if |buf| < 4 + length then NeedMore
      else Complete(buf[4..4 + length], 4 + length)
  }

  datatype Decoded<T> =
    | Incomplete
    | OverCap(declared: nat, limit: int)
    | Malformed
    | Message(message: T, consumed: nat)

  function DecodeRequest(fc: Floats, buf: Octets, max: int): Decoded<Request> {
    match TrySplitFrame(buf, max)
    case NeedMore => Incomplete
    case TooLarge(n, m) => OverCap(n, m)
    case Complete(body, consumed) =>
      match DecodeRequestBody(fc, body)
      case None => Malformed
      case Some(req) => Message(req, consumed)
  }

  function DecodeResponse(fc: Floats, buf: Octets, max: int): Decoded<Response> {
    match TrySplitFrame(buf, max)
    case NeedMore => Incomplete
    case TooLarge(n, m) => OverCap(n, m)
    case Complete(body, consumed) =>
      match DecodeResponseBody(fc, body)
      case None => Malformed
      case Some(resp) => Message(resp, consumed)
  }

  // --- one frame ---

  ghost predicate Framable(body: Octets, max: int) { |body| <= max && |body| < 0x1_0000_0000 }

  /** The length the first four bytes declare. */
  function Declared(buf: Octets): nat
    requires |buf| >= 4
  {
    var a: nat, b: nat, c: nat, d: nat := buf[0], buf[1], buf[2], buf[3];
    a + 0x100 * b + 0x1_0000 * c + 0x100_0000 * d
  }

  /** The whole decision: refused as soon as the four bytes of the prefix are there and
      declare more than the cap, whatever stands behind them; otherwise complete as
      soon as the declared bytes are. */
  lemma SplitDecides(buf: Octets, max: int)
    ensures |buf| < 4 ==> TrySplitFrame(buf, max) == NeedMore
    ensures |buf| >= 4 && Declared(buf) > max ==> TrySplitFrame(buf, max) == TooLarge(Declared(buf), max)
    ensures |buf| >= 4 && Declared(buf) <= max && |buf| < 4 + Declared(buf) ==> TrySplitFrame(buf, max) == NeedMore
    ensures |buf| >= 4 && Declared(buf) <= max && |buf| >= 4 + Declared(buf) ==>
      TrySplitFrame(buf, max) == Complete(buf[4..4 + Declared(buf)], 4 + Declared(buf))
  {
    hide FromLE32;
    if |buf| >= 4 {
      assert buf[..4] == [buf[0], buf[1], buf[2], buf[3]];
      LE32Bytes(buf[0], buf[1], buf[2], buf[3]);
    }
  }

  /** A prefix over the cap is refused alone, and with anything behind it. */
  lemma OverCapIsRefused(a: byte, b: byte, c: byte, d: byte, t: Octets, max: int)
    requires a + 0x100 * b + 0x1_0000 * c + 0x100_0000 * d > max
    ensures TrySplitFrame([a, b, c, d] + t, max) == TooLarge(a + 0x100 * b + 0x1_0000 * c + 0x100_0000 * d, max)
  {
    SplitDecides([a, b, c, d] + t, max);
  }

  lemma SplitFrame(body: Octets, max: int, t: Octets)
    requires Framable(body, max)
    ensures TrySplitFrame(FrameOf(body) + t, max) == Complete(body, |FrameOf(body)|)
  {
    var buf := FrameOf(body) + t;
    assert buf[..4] == LE32(|body|) && buf[4..4 + |body|] == body;
    LE32RoundTrip(|body|, LE32(0));
  }

  /** Every strict prefix of a frame within the cap asks for more. */
  lemma StrictPrefixNeedsMore(body: Octets, max: int, k: nat)
    requires Framable(body, max) && k < |FrameOf(body)|
    ensures TrySplitFrame(FrameOf(body)[..k], max) == NeedMore
  {
    if k >= 4 {
      assert FrameOf(body)[..k][..4] == LE32(|body|);
      LE32RoundTrip(|body|, LE32(0));
    }
  }

  lemma RequestFrameRoundTrip(fc: Floats, r: Request, max: int, t: Octets)
    requires RequestFits(r) && Framable(EncodeRequest(r), max)
    ensures DecodeRequest(fc, FrameOf(EncodeRequest(r)) + t, max) == Message(r, |FrameOf(EncodeRequest(r))|)
  {
    hide EncodeRequest, RequestFits, ParseRequest, TrySplitFrame, FrameOf, Framable;
    SplitFrame(EncodeRequest(r), max, t);
    CodecRoundTrip.ParseEncodedRequest(fc, r, []);
    assert EncodeRequest(r) + [] == EncodeRequest(r);
  }

  lemma ResponseFrameRoundTrip(fc: Floats, r: Response, max: int, t: Octets)
    requires ResponseFits(r) && Framable(EncodeResponse(r), max)
    ensures DecodeResponse(fc, FrameOf(EncodeResponse(r)) + t, max) == Message(r, |FrameOf(EncodeResponse(r))|)
  {
    hide EncodeResponse, ResponseFits, ParseResponse, TrySplitFrame, FrameOf, Framable;
    SplitFrame(EncodeResponse(r), max, t);
    CodecRoundTrip.ParseEncodedResponse(fc, r, []);
    assert EncodeResponse(r) + [] == EncodeResponse(r);
  }

  // --- streams ---

  /** The bodies split off a stream, the bytes still waiting, and whether an over-cap prefix ended it. */
  datatype Stream = Stream(bodies: seq<Octets>, rest: Octets, overCap: bool)

  function SplitAll(buf: Octets, max: int): Stream
    decreases |buf|
  {
    match TrySplitFrame(buf, max)
    case NeedMore => Stream([], buf, false)
    case TooLarge(_, _) => Stream([], buf, true)
    case Complete(body, consumed) =>
      var tail := SplitAll(buf[consumed..], max);
      tail.(bodies := [body] + tail.bodies)
  }

  function Frames(bodies: seq<Octets>): Octets {
    if bodies == [] then [] else FrameOf(bodies[0]) + Frames(bodies[1..])
  }

  /** The frames of any bodies within the cap come back exactly, in order, and
      what stands behind them is split as if they had not been there. */
  lemma {:induction false} SplitFrames(bodies: seq<Octets>, max: int, t: Octets)
    requires forall b | b in bodies :: Framable(b, max)
    ensures SplitAll(Frames(bodies) + t, max) == SplitAll(t, max).(bodies := bodies + SplitAll(t, max).bodies)
  {
    hide TrySplitFrame, FrameOf;
    if bodies == [] {
      assert Frames(bodies) + t == t && bodies + SplitAll(t, max).bodies == SplitAll(t, max).bodies;
    } else {
      var rest := Frames(bodies[1..]) + t;
      assert Frames(bodies) + t == FrameOf(bodies[0]) + rest;
      SplitFrame(bodies[0], max, rest);
      assert (FrameOf(bodies[0]) + rest)[|FrameOf(bodies[0])|..] == rest;
      SplitFrames(bodies[1..], max, t);
      assert bodies + SplitAll(t, max).bodies == [bodies[0]] + (bodies[1..] + SplitAll(t, max).bodies);
    }
  }

  /** Complete frames are consumed without remainder; a partial last frame stays buffered. */
  lemma SplitFramesExactly(bodies: seq<Octets>, last: Octets, k: nat, max: int)
    requires (forall b | b in bodies :: Framable(b, max)) && Framable(last, max) && k < |FrameOf(last)|
    ensures SplitAll(Frames(bodies) + FrameOf(last)[..k], max) == Stream(bodies, FrameOf(last)[..k], false)
  {
    StrictPrefixNeedsMore(last, max, k);
    SplitFrames(bodies, max, FrameOf(last)[..k]);
    assert bodies + [] == bodies;
  }

  lemma CompleteIsFrame(buf: Octets, max: int)
    requires TrySplitFrame(buf, max).Complete?
    ensures var Complete(body, k) := TrySplitFrame(buf, max);
      buf == FrameOf(body) + buf[k..] && Framable(body, max)
  {
    hide LE32, FromLE32;
    var n := FromLE32(buf[..4]);
    LE32RoundTrip(0, buf[..4]);
    assert buf == buf[..4] + buf[4..4 + n] + buf[4 + n..];
  }

  /** Nothing is lost or made up: the split bodies, framed again, are the bytes consumed. */
  lemma {:induction false} SplitConserves(buf: Octets, max: int)
    ensures Frames(SplitAll(buf, max).bodies) + SplitAll(buf, max).rest == buf
    ensures forall b | b in SplitAll(buf, max).bodies :: Framable(b, max)
    decreases |buf|
  {
    hide TrySplitFrame, FrameOf, Framable;
    match TrySplitFrame(buf, max) {
      case Complete(body, consumed) =>
        SplitConserves(buf[consumed..], max);
        CompleteIsFrame(buf, max);
        var tail := SplitAll(buf[consumed..], max);
        assert ([body] + tail.bodies)[1..] == tail.bodies;
        Append(FrameOf(body), Frames(tail.bodies), tail.rest);
      case _ =>
    }
  }

  /** More bytes arriving: a stream ended by its cap stays ended. */
  function Feed(st: Stream, chunk: Octets, max: int): Stream {
    if st.overCap then st.(rest := st.rest + chunk)
    else
      var more := SplitAll(st.rest + chunk, max);
      more.(bodies := st.bodies + more.bodies)
  }

  function FeedAll(st: Stream, chunks: seq<Octets>, max: int): Stream
    decreases |chunks|
  {
    if chunks == [] then st else FeedAll(Feed(st, chunks[0], max), chunks[1..], max)
  }

  function Concat(chunks: seq<Octets>): Octets {
    if chunks == [] then [] else chunks[0] + Concat(chunks[1..])
  }

  lemma SplitStable(s: Octets, t: Octets, max: int)
    ensures TrySplitFrame(s, max).Complete? ==>
      TrySplitFrame(s + t, max) == TrySplitFrame(s, max)
    ensures TrySplitFrame(s, max).TooLarge? ==> TrySplitFrame(s + t, max) == TrySplitFrame(s, max)
  {
    if |s| >= 4 {
      assert (s + t)[..4] == s[..4];
      var n: nat := FromLE32(s[..4]);
      assert |s| >= 4 + n ==> (s + t)[4..4 + n] == s[4..4 + n];
    }
  }

  lemma {:induction false} FeedContinues(s: Octets, t: Octets, max: int)
    ensures SplitAll(s + t, max) == Feed(SplitAll(s, max), t, max)
    decreases |s|
  {
    hide TrySplitFrame;
    SplitStable(s, t, max);
    match TrySplitFrame(s, max) {
      case NeedMore =>
        assert [] + SplitAll(s + t, max).bodies == SplitAll(s + t, max).bodies;
      case TooLarge(_, _) =>
      case Complete(body, k) =>
        assert (s + t)[k..] == s[k..] + t;
        FeedContinues(s[k..], t, max);
        var tail := SplitAll(s[k..], max);
        var more := SplitAll(tail.rest + t, max);
        assert [body] + (tail.bodies + more.bodies) == ([body] + tail.bodies) + more.bodies;
    }
  }

  /** However the bytes are cut into chunks, the same bodies come out. */
  lemma {:induction false} ChunkingIsIrrelevant(s: Octets, chunks: seq<Octets>, max: int)
    ensures FeedAll(SplitAll(s, max), chunks, max) == SplitAll(s + Concat(chunks), max)
    decreases |chunks|
  {
    if chunks == [] {
      assert s + Concat(chunks) == s;
    } else {
      FeedContinues(s, chunks[0], max);
      ChunkingIsIrrelevant(s + chunks[0], chunks[1..], max);
      Append(s, chunks[0], Concat(chunks[1..]));
    }
  }
}
