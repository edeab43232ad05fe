/**
 The codec as the source runs it: an encoder appending to a buffer and a decoder
 moving a cursor. Every method is proved against the functions of Codec.
 The primitive operations (one head, one string, one skipped object) belong to
 the MessagePack library, which is not part of this model: they are taken from
 the format's specification.
 */
module CodecMachine {
  import opened Wrappers
  import opened MsgPack
  import MsgPackObject
  import opened Values
  import opened Codec

  datatype Message = RequestMessage(request: Request) | ResponseMessage(response: Response) | OtherMessage

  class Encoder {
    var buf: Octets

    constructor ()
      ensures buf == []
    {
      buf := [];
    }

    method Write(s: Octets)
      modifies this
      ensures buf == old(buf) + s
    {
      buf := buf + s;
    }

    method WriteTag(name: Octets)
      modifies this
      ensures buf == old(buf) + EncodeTag(name)
    {
      Write(WriteCount(KMap, 1));
      Write(WriteStr(name));
    }

    method Value(v: Value)
      modifies this
      ensures buf == old(buf) + EncodeValue(v)
      decreases v
    {
      hide EncodeTag, EncodeAll, EncodeEntries, WriteStr, WriteBin, WriteInt, WriteFloat64, WriteBool, WriteCount;
      ghost var start := buf;
      match v
      case Null => Write(WriteStr(NULL));
      case Bool(b) =>
        WriteTag(BOOL);
        Write(WriteBool(b));
        Append(start, EncodeTag(BOOL), WriteBool(b));
      case Int(i) =>
        WriteTag(INT);
        Write(WriteInt(i));
        Append(start, EncodeTag(INT), WriteInt(i));
      case Float(bits) =>
        WriteTag(FLOAT);
        Write(WriteFloat64(bits));
        Append(start, EncodeTag(FLOAT), WriteFloat64(bits));
      case Bytes(d) =>
        WriteTag(BYTES);
        Write(WriteBin(d));
        Append(start, EncodeTag(BYTES), WriteBin(d));
      case Str(s) =>
        WriteTag(STR);
        Write(WriteStr(s));
        Append(start, EncodeTag(STR), WriteStr(s));
      case Array(vs) =>
        WriteTag(ARRAY);
        Items(vs);
        Append(start, EncodeTag(ARRAY), EncodeArgs(vs));
      case Map(es) =>
        WriteTag(MAP);
        Pairs(es);
        Append(start, EncodeTag(MAP), WriteCount(KArray, |es|) + EncodeEntries(es));
    }

    method Items(vs: seq<Value>)
      modifies this
      ensures buf == old(buf) + EncodeArgs(vs)
      decreases vs, 1
    {
      hide EncodeValue, WriteCount;
      Write(WriteCount(KArray, |vs|));
      ghost var start := buf;
      for i := 0 to |vs|
        invariant buf + EncodeAll(vs[i..]) == start + EncodeAll(vs)
      {
        ghost var before := buf;
        Value(vs[i]);
        assert vs[i..][1..] == vs[i + 1..];
        Append(before, EncodeValue(vs[i]), EncodeAll(vs[i + 1..]));
      }
      assert vs[|vs|..] == [] && buf + [] == buf;
      Append(old(buf), WriteCount(KArray, |vs|), EncodeAll(vs));
    }

    method Pairs(es: seq<Entry>)
      modifies this
      ensures buf == old(buf) + (WriteCount(KArray, |es|) + EncodeEntries(es))
      decreases es, 1
    {
      hide EncodeEntry, WriteCount;
      Write(WriteCount(KArray, |es|));
      ghost var start := buf;
      for i := 0 to |es|
        invariant buf + EncodeEntries(es[i..]) == start + EncodeEntries(es)
      {
        ghost var before := buf;
        Pair(es[i]);
        assert es[i..][1..] == es[i + 1..];
        Append(before, EncodeEntry(es[i]), EncodeEntries(es[i + 1..]));
      }
      assert es[|es|..] == [] && buf + [] == buf;
      Append(old(buf), WriteCount(KArray, |es|), EncodeEntries(es));
    }

    method Pair(e: Entry)
      modifies this
      ensures buf == old(buf) + EncodeEntry(e)
      decreases e, 0
    {
      hide EncodeValue, WriteCount;
      Write(WriteCount(KArray, 2));
      Value(e.key);
      Value(e.val);
      Append(old(buf) + WriteCount(KArray, 2), EncodeValue(e.key), EncodeValue(e.val));
      Append(old(buf), WriteCount(KArray, 2), EncodeValue(e.key) + EncodeValue(e.val));
    }

    method Request(r: Request)
      modifies this
      ensures buf == old(buf) + EncodeRequest(r)
    {
      hide EncodeArgs, WriteCount, WriteUint, WriteStr;
      ghost var start := buf;
      Write(WriteCount(KArray, 3));
      Write(WriteUint(r.id));
      Write(WriteStr(r.command));
      Items(r.args);
      ghost var a, b, c, d := WriteCount(KArray, 3), WriteUint(r.id), WriteStr(r.command), EncodeArgs(r.args);
      Append(start + a + b, c, d);
      Append(start + a, b, c + d);
      Append(start, a, b + (c + d));
    }

    method Response(r: Response)
      modifies this
      ensures buf == old(buf) + EncodeResponse(r)
    {
      hide EncodeResult, WriteCount, WriteUint;
      Write(WriteCount(KArray, 2));
      Write(WriteUint(r.id));
      Result(r);
      Append(old(buf) + WriteCount(KArray, 2), WriteUint(r.id), EncodeResult(r));
      Append(old(buf), WriteCount(KArray, 2), WriteUint(r.id) + EncodeResult(r));
    }

    method Result(r: Response)
      modifies this
      ensures buf == old(buf) + EncodeResult(r)
    {
      hide EncodeTag, WriteStr, EncodeValue;
      if r.ResponseErr? {
        WriteTag(ERR);
        Write(WriteStr(r.err));
        Append(old(buf), EncodeTag(ERR), WriteStr(r.err));
      } else {
        WriteTag(OK);
        Value(r.ok);
        Append(old(buf), EncodeTag(OK), EncodeValue(r.ok));
      }
    }
  }

  /** The body of a message, or None for anything that is neither a Request nor a Response. */
  function BodyOf(m: Message): Option<Octets> {
    match m
    case RequestMessage(r) => Some(EncodeRequest(r))
    case ResponseMessage(r) => Some(EncodeResponse(r))
    case OtherMessage => None
  }

  method EncodeBody(m: Message) returns (body: Option<Octets>)
    ensures body == BodyOf(m)
    ensures body.None? <==> m.OtherMessage?
  {
    var enc := new Encoder();
    match m
    case RequestMessage(r) =>
      enc.Request(r);
      body := Some(enc.buf);
      assert [] + EncodeRequest(r) == EncodeRequest(r);
    case ResponseMessage(r) =>
      enc.Response(r);
      body := Some(enc.buf);
      assert [] + EncodeResponse(r) == EncodeResponse(r);
    case OtherMessage =>
      body := None;
  }

  class Decoder {
    const data: Octets
    const floats: Floats
    var pos: nat

    constructor (floats: Floats, data: Octets)
      ensures Valid() && this.data == data && this.floats == floats && Rest() == data
    {
      this.data := data;
      this.floats := floats;
      pos := 0;
    }

    ghost predicate Valid() reads this { pos <= |data| }

    /** The unread bytes. */
    function Rest(): Octets
      requires Valid()
      reads this
    {
      data[pos..]
    }

    /** r is what `parsed` says, and the cursor stands behind it. */
    ghost predicate Reads<T>(parsed: Option<(T, Octets)>, r: Option<T>) reads this {
      && Valid()
      && (parsed.None? ==> r.None?)
      && (parsed.Some? ==> r == Some(parsed.value.0) && Rest() == parsed.value.1)
    }

    method PeekCode() returns (c: Option<byte>)
      requires Valid()
      ensures c == if Rest() == [] then None else Some(Rest()[0])
    {
      c := if pos < |data| then Some(data[pos]) else None;
    }

    method Head() returns (r: Option<Head>)
      requires Valid()
      modifies this
      ensures Reads(ReadHead(old(Rest())), r)
    {
      var parsed := ReadHead(Rest());
      match parsed
      case None => r := None;
      case Some((h, rest)) =>
        pos := |data| - |rest|;
        r := Some(h);
    }

    method Count(k: Kind) returns (r: Option<nat>)
      requires Valid()
      modifies this
      ensures Reads(ReadCount(k, old(Rest())), r)
    {
      var h := Head();
      r := if h.Some? && h.value.HSized? && h.value.kind == k then Some(h.value.count) else None;
    }

    method Blob(k: Kind) returns (r: Option<Octets>)
      requires Valid()
      modifies this
      ensures Reads(ReadBlob(k, old(Rest())), r)
    {
      hide ReadHead;
      var n := Count(k);
      if n.None? || pos + n.value > |data| { return None; }
      ghost var rest := Rest();
      r := Some(data[pos..pos + n.value]);
      assert r.value == rest[..n.value];
      pos := pos + n.value;
      assert Rest() == rest[n.value..];
    }

    method Int64() returns (r: Option<int64>)
      requires Valid()
      modifies this
      ensures Reads(ReadInt64(old(Rest())), r)
    {
      var h := Head();
      if h.Some? && h.value.HInt? && -0x8000_0000_0000_0000 <= h.value.n < 0x8000_0000_0000_0000 {
        r := Some(h.value.n);
      } else {
        r := None;
      }
    }

    method Uint64() returns (r: Option<u64>)
      requires Valid()
      modifies this
      ensures Reads(ReadUint64(old(Rest())), r)
    {
      var h := Head();
      if h.Some? && h.value.HInt? && 0 <= h.value.n < 0x1_0000_0000_0000_0000 {
        r := Some(h.value.n);
      } else {
        r := None;
      }
    }

    method Boolean() returns (r: Option<bool>)
      requires Valid()
      modifies this
      ensures Reads(ReadBool(old(Rest())), r)
    {
      var h := Head();
      r := if h.Some? && h.value.HBool? then Some(h.value.b) else None;
    }

    method SkipObject() returns (ok: bool)
      requires Valid()
      modifies this
      ensures Valid() && ok == MsgPackObject.Skip(old(Rest())).Some?
      ensures ok ==> Rest() == MsgPackObject.Skip(old(Rest())).value
    {
      var rest := MsgPackObject.Skip(Rest());
      ok := rest.Some?;
      if ok {
        ghost var o := MsgPackObject.SkippedIsObject(Rest());
        pos := |data| - |rest.value|;
      }
    }

    method FrameId() returns (r: Option<u32>)
      requires Valid()
      modifies this
      ensures Reads(ParseFrameId(old(Rest())), r)
    {
      var u := Uint64();
      r := if u.Some? && u.value <= 0xFFFF_FFFF then Some(u.value) else None;
    }

    method Float() returns (r: Option<u64>)
      requires Valid()
      modifies this
      ensures Reads(ParseFloat(floats, old(Rest())), r)
    {
      var code := PeekCode();
      if code.None? { return None; }
      if IsIntCode(code.value) {
        var i := Int64();
        return if i.Some? then Some(floats.ofInt(i.value)) else None;
      }
      FloatBitsFit(Rest());
      var h := Head();
      match h {
        case Some(HFloat32(b)) => r := Some(floats.ofFloat32(b));
        case Some(HFloat64(b)) => r := Some(b);
        case _ => r := None;
      }
    }

    /** A Bytes payload: bin, or the legacy array of byte-range integers. */
    method BytesTolerant() returns (r: Option<Octets>)
      requires Valid()
      modifies this
      ensures Reads(ParseBytes(old(Rest())), r)
    {
      hide ReadCount, ReadBlob, ParseByteItems;
      var code := PeekCode();
      if code.None? { return None; }
      if !IsArrayCode(code.value) {
        r := Blob(KBin);
        return;
      }
      var n := Count(KArray);
      if n.None? { return None; }
      r := ByteItems(n.value);
    }

    method ByteItems(n: nat) returns (r: Option<Octets>)
      requires Valid()
      modifies this
      ensures Reads(ParseByteItems(old(Rest()), n), r)
    {
      hide ReadUint64, ParseByteItems;
      ghost var start := Rest();
      var out: Octets := [];
      PrependNothing(ParseByteItems(start, n));
      for i := 0 to n
        invariant Valid() && |out| == i
        invariant ParseByteItems(start, n) == Prepend(out, ParseByteItems(Rest(), n - i))
      {
        ByteItemsStep(Rest(), n - i);
        var u := Uint64();
        if u.None? || u.value > 255 { return None; }
        PrependOne(out, u.value, ParseByteItems(Rest(), n - i - 1));
        out := out + [u.value];
      }
      ByteItemsEnd(Rest());
      PrependEnd(out, Rest());
      r := Some(out);
    }

    method ArrayLength() returns (r: Option<nat>)
      requires Valid()
      modifies this
      ensures Reads(ParseArrayLength(old(Rest())), r)
    {
      var code := PeekCode();
      if code.None? || !IsArrayCode(code.value) { return None; }
      r := Count(KArray);
    }

    method ValueArray() returns (r: Option<seq<Value>>)
      requires Valid()
      modifies this
      ensures Reads(ParseArray(floats, old(Rest())), r)
      decreases |data| - pos, 2
    {
      hide ParseArrayLength, ParseValues;
      var n := ArrayLength();
      if n.None? { return None; }
      r := Items(n.value);
    }

    method Items(n: nat) returns (r: Option<seq<Value>>)
      requires Valid()
      modifies this
      ensures Reads(ParseValues(floats, old(Rest()), n), r)
      decreases |data| - pos, 1
    {
      hide ParseValue, ParseValues;
      ghost var start := Rest();
      var out: seq<Value> := [];
      PrependNothing(ParseValues(floats, start, n));
      for i := 0 to n
        invariant Valid() && |out| == i && pos >= old(pos)
        invariant ParseValues(floats, start, n) == Prepend(out, ParseValues(floats, Rest(), n - i))
      {
        ValuesStep(floats, Rest(), n - i);
        var v := Value();
        if v.None? { return None; }
        PrependOne(out, v.value, ParseValues(floats, Rest(), n - i - 1));
        out := out + [v.value];
      }
      ValuesEnd(floats, Rest());
      PrependEnd(out, Rest());
      r := Some(out);
    }

    method Value() returns (r: Option<Value>)
      requires Valid()
      modifies this
      ensures Reads(ParseValue(floats, old(Rest())), r)
      ensures r.Some? ==> pos > old(pos)
      decreases |data| - pos, 0
    {
      var code := PeekCode();
      if code.None? { return None; }
      if IsStringCode(code.value) {
        var name := Blob(KStr);
        return if name == Some(NULL) then Some(Null) else None;
      }
      if !IsMapCode(code.value) { return None; }
      var n := Count(KMap);
      if n != Some(1) { return None; }
      var tag := Blob(KStr);
      if tag.None? { return None; }
      r := Tagged(tag.value);
    }

    method Tagged(tag: Octets) returns (r: Option<Value>)
      requires Valid()
      modifies this
      ensures Reads(ParseTagged(floats, tag, old(Rest())), r)
      decreases |data| - pos, 3
    {
      if tag == BOOL {
        var b := Boolean();
        r := if b.Some? then Some(Bool(b.value)) else None;
      } else if tag == INT {
        var i := Int64();
        r := if i.Some? then Some(Int(i.value)) else None;
      } else if tag == FLOAT {
        var f := Float();
        r := if f.Some? then Some(Values.Float(f.value)) else None;
      } else if tag == STR {
        var s := Blob(KStr);
        r := if s.Some? then Some(Str(s.value)) else None;
      } else if tag == BYTES {
        var d := BytesTolerant();
        r := if d.Some? then Some(Bytes(d.value)) else None;
      } else if tag == ARRAY {
        var vs := ValueArray();
        r := if vs.Some? then Some(Array(vs.value)) else None;
      } else if tag == MAP {
        var es := MapPairs();
        r := if es.Some? then Some(Map(es.value)) else None;
      } else {
        r := None;
      }
    }

    method MapPairs() returns (r: Option<seq<Entry>>)
      requires Valid()
      modifies this
      ensures Reads(ParsePairs(floats, old(Rest())), r)
      decreases |data| - pos, 2
    {
      hide ParseArrayLength, ParseEntries;
      var n := ArrayLength();
      if n.None? { return None; }
      r := Pairs(n.value);
    }

    method Pairs(n: nat) returns (r: Option<seq<Entry>>)
      requires Valid()
      modifies this
      ensures Reads(ParseEntries(floats, old(Rest()), n), r)
      decreases |data| - pos, 2
    {
      hide ParseEntry, ParseEntries;
      ghost var start := Rest();
      var out: seq<Entry> := [];
      PrependNothing(ParseEntries(floats, start, n));
      for i := 0 to n
        invariant Valid() && |out| == i && pos >= old(pos)
        invariant ParseEntries(floats, start, n) == Prepend(out, ParseEntries(floats, Rest(), n - i))
      {
        EntriesStep(floats, Rest(), n - i);
        var e := Pair();
        if e.None? { return None; }
        PrependOne(out, e.value, ParseEntries(floats, Rest(), n - i - 1));
        out := out + [e.value];
      }
      EntriesEnd(floats, Rest());
      PrependEnd(out, Rest());
      r := Some(out);
    }

    method Pair() returns (r: Option<Entry>)
      requires Valid()
      modifies this
      ensures Reads(ParseEntry(floats, old(Rest())), r)
      ensures r.Some? ==> pos > old(pos)
      decreases |data| - pos, 1
    {
      var n := ArrayLength();
      if n != Some(2) { return None; }
      var key := Value();
      if key.None? { return None; }
      var val := Value();
      if val.None? { return None; }
      r := Some(Entry(key.value, val.value));
    }

    method Request() returns (r: Option<Request>)
      requires Valid()
      modifies this
      ensures Reads(ParseRequest(floats, old(Rest())), r)
    {
      var code := PeekCode();
      if code.None? { return None; }
      if IsArrayCode(code.value) {
        r := ArrayShapedRequest();
      } else if IsMapCode(code.value) {
        r := MapShapedRequest();
      } else {
        r := None;
      }
    }

    method ArrayShapedRequest() returns (r: Option<Request>)
      requires Valid()
      modifies this
      ensures Reads(ParseArrayShaped(floats, old(Rest())), r)
    {
      var n := Count(KArray);
      if n != Some(3) { return None; }
      var id := FrameId();
      if id.None? { return None; }
      var command := Blob(KStr);
      if command.None? { return None; }
      var args := ValueArray();
      if args.None? { return None; }
      r := Some(Values.Request(id.value, command.value, args.value));
    }

    method MapShapedRequest() returns (r: Option<Request>)
      requires Valid()
      modifies this
      ensures Reads(ParseMapShaped(floats, old(Rest())), r)
    {
      hide ReadCount, ReadBlob, ParseFrameId, ParseArray, MsgPackObject.Skip, ParseFields;
      var n := Count(KMap);
      if n.None? { return None; }
      ghost var start := Rest();
      var id: u32, command: Octets, args: seq<Value> := 0, [], [];
      var haveId, haveCommand, haveArgs := false, false, false;
      ghost var got := NOTHING;
      for i := 0 to n.value
        invariant Valid()
        invariant ParseFields(floats, start, n.value, NOTHING) == ParseFields(floats, Rest(), n.value - i, got)
        invariant got == Partial(if haveId then Some(id) else None,
                                 if haveCommand then Some(command) else None,
                                 if haveArgs then Some(args) else None)
      {
        FieldsStep(floats, Rest(), n.value - i, got);
        var key := Blob(KStr);
        if key.None? { return None; }
        if key.value == ID {
          var x := FrameId();
          if x.None? { return None; }
          id, haveId := x.value, true;
          got := got.(id := Some(id));
        } else if key.value == COMMAND {
          var x := Blob(KStr);
          if x.None? { return None; }
          command, haveCommand := x.value, true;
          got := got.(command := Some(command));
        } else if key.value == ARGS {
          var x := ValueArray();
          if x.None? { return None; }
          args, haveArgs := x.value, true;
          got := got.(args := Some(args));
        } else {
          var ok := SkipObject();
          if !ok { return None; }
        }
      }
      FieldsEnd(floats, Rest(), got);
      if !haveId || !haveCommand || !haveArgs { return None; }
      r := Some(Values.Request(id, command, args));
    }

    method Response() returns (r: Option<Response>)
      requires Valid()
      modifies this
      ensures Reads(ParseResponse(floats, old(Rest())), r)
    {
      var n := ArrayLength();
      if n != Some(2) { return None; }
      var id := FrameId();
      if id.None? { return None; }
      r := Result(id.value);
    }

    method Result(id: u32) returns (r: Option<Response>)
      requires Valid()
      modifies this
      ensures Reads(ParseResult(floats, id, old(Rest())), r)
    {
      var code := PeekCode();
      if code.None? || !IsMapCode(code.value) { return None; }
      var n := Count(KMap);
      if n != Some(1) { return None; }
      var arm := Blob(KStr);
      if arm == Some(OK) {
        var v := Value();
        r := if v.Some? then Some(ResponseOk(id, v.value)) else None;
      } else if arm == Some(ERR) {
        var m := Blob(KStr);
        r := if m.Some? then Some(ResponseErr(id, m.value)) else None;
      } else {
        r := None;
      }
    }
  }

  method RunDecodeRequestBody(floats: Floats, body: Octets) returns (r: Option<Request>)
    ensures r == DecodeRequestBody(floats, body)
  {
    var dec := new Decoder(floats, body);
    r := dec.Request();
  }

  method RunDecodeResponseBody(floats: Floats, body: Octets) returns (r: Option<Response>)
    ensures r == DecodeResponseBody(floats, body)
  {
    var dec := new Decoder(floats, body);
    r := dec.Response();
  }
}
