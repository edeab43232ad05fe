/** What the encoder writes is what the decoder reads, whatever bytes follow. */
module CodecRoundTrip {
  import opened Wrappers
  import opened MsgPack
  import opened Values
  import opened Codec

  lemma ReadTag(name: Octets, t: Octets)
    requires |name| < 0x20
    ensures ReadCount(KMap, EncodeTag(name) + t) == Some((1, WriteStr(name) + t))
    ensures ReadStr(WriteStr(name) + t) == Some((name, t))
    ensures EncodeTag(name) + t != [] && (EncodeTag(name) + t)[0] == 0x81
  {
    Append(WriteCount(KMap, 1), WriteStr(name), t);
    ReadWriteCount(KMap, 1, WriteStr(name) + t);
    ReadWriteBlob(KStr, name, t);
  }

  lemma ParseTag(fc: Floats, name: Octets, t: Octets)
    requires |name| < 0x20
    ensures ParseValue(fc, EncodeTag(name) + t) == ParseTagged(fc, name, t)
  {
    ReadTag(name, t);
  }

  lemma ParseWrittenArrayLength(n: u32, t: Octets)
    ensures ParseArrayLength(WriteCount(KArray, n) + t) == Some((n, t))
  {
    ReadWriteCount(KArray, n, t);
  }

  lemma ParseWrittenFrameId(id: u32, t: Octets)
    ensures ParseFrameId(WriteUint(id) + t) == Some((id, t))
  {
    ReadWriteUint(id, t);
  }

  lemma ParseScalar(fc: Floats, v: Value, t: Octets)
    requires !v.Array? && !v.Map? && Fits(v)
    ensures ParseValue(fc, EncodeValue(v) + t) == Some((v, t))
  {
    hide ReadHead, EncodeTag;
    match v {
      case Null => ReadWriteBlob(KStr, NULL, t);
      case Bool(b) =>
        Append(EncodeTag(BOOL), WriteBool(b), t);
        ParseTag(fc, BOOL, WriteBool(b) + t);
        ReadWriteBool(b, t);
      case Int(i) =>
        Append(EncodeTag(INT), WriteInt(i), t);
        ParseTag(fc, INT, WriteInt(i) + t);
        ReadWriteInt(i, t);
      case Float(bits) =>
        Append(EncodeTag(FLOAT), WriteFloat64(bits), t);
        ParseTag(fc, FLOAT, WriteFloat64(bits) + t);
        ReadWriteFloat64(bits, t);
      case Bytes(d) =>
        Append(EncodeTag(BYTES), WriteBin(d), t);
        ParseTag(fc, BYTES, WriteBin(d) + t);
        ReadWriteBlob(KBin, d, t);
      case Str(s) =>
        Append(EncodeTag(STR), WriteStr(s), t);
        ParseTag(fc, STR, WriteStr(s) + t);
        ReadWriteBlob(KStr, s, t);
    }
  }

  lemma ArrayTag(fc: Floats, s: Octets)
    ensures ParseTagged(fc, ARRAY, s) == match ParseArray(fc, s) { case None => None case Some((vs, u)) => Some((Array(vs), u)) }
  {
    hide ParseArray;
  }

  lemma MapTag(fc: Floats, s: Octets)
    ensures ParseTagged(fc, MAP, s) == match ParsePairs(fc, s) { case None => None case Some((es, u)) => Some((Map(es), u)) }
  {
    hide ParsePairs;
  }

  /** The round trip with continuation, for every value whose lengths the format can carry. */
  lemma {:induction false} ParseEncodedValue(fc: Floats, v: Value, t: Octets)
    requires Fits(v)
    ensures ParseValue(fc, EncodeValue(v) + t) == Some((v, t))
    decreases v
  {
    hide ParseValue, ParseTagged, ParseValues, ParseEntries, ParseArrayLength, EncodeTag, EncodeAll, EncodeEntries, WriteCount;
    match v {
      case Array(vs) =>
        var body := EncodeAll(vs) + t;
        Nested(EncodeTag(ARRAY), WriteCount(KArray, |vs|), EncodeAll(vs), t);
        ParseTag(fc, ARRAY, WriteCount(KArray, |vs|) + body);
        ArrayTag(fc, WriteCount(KArray, |vs|) + body);
        ParseWrittenArrayLength(|vs|, body);
        ParseEncodedValues(fc, vs, t);
      case Map(es) =>
        var body := EncodeEntries(es) + t;
        Nested(EncodeTag(MAP), WriteCount(KArray, |es|), EncodeEntries(es), t);
        ParseTag(fc, MAP, WriteCount(KArray, |es|) + body);
        MapTag(fc, WriteCount(KArray, |es|) + body);
        ParseWrittenArrayLength(|es|, body);
        ParseEncodedEntries(fc, es, t);
      case _ => ParseScalar(fc, v, t);
    }
  }

  lemma Nested(a: Octets, b: Octets, c: Octets, t: Octets)
    ensures a + (b + c) + t == a + (b + (c + t))
  {
  }

  lemma {:induction false} ParseEncodedValues(fc: Floats, vs: seq<Value>, t: Octets)
    requires forall v | v in vs :: Fits(v)
    ensures ParseValues(fc, EncodeAll(vs) + t, |vs|) == Some((vs, t))
    decreases vs
  {
    hide ParseEntry, EncodeEntry;
    hide ParseValue, EncodeValue;
    if vs == [] {
      assert EncodeAll(vs) + t == t;
    } else {
      Append(EncodeValue(vs[0]), EncodeAll(vs[1..]), t);
      ParseEncodedValue(fc, vs[0], EncodeAll(vs[1..]) + t);
      ParseEncodedValues(fc, vs[1..], t);
      assert vs == [vs[0]] + vs[1..];
    }
  }

  lemma {:induction false} ParseEncodedEntry(fc: Floats, e: Entry, t: Octets)
    requires Fits(e.key) && Fits(e.val)
    ensures ParseEntry(fc, EncodeEntry(e) + t) == Some((e, t))
    decreases e
  {
    hide ParseValue, EncodeValue, ParseArrayLength;
    var rest := EncodeValue(e.key) + (EncodeValue(e.val) + t);
    assert EncodeEntry(e) + t == WriteCount(KArray, 2) + rest;
    ParseWrittenArrayLength(2, rest);
    ParseEncodedValue(fc, e.key, EncodeValue(e.val) + t);
    ParseEncodedValue(fc, e.val, t);
  }

  lemma {:induction false} ParseEncodedEntries(fc: Floats, es: seq<Entry>, t: Octets)
    requires forall e | e in es :: Fits(e.key) && Fits(e.val)
    ensures ParseEntries(fc, EncodeEntries(es) + t, |es|) == Some((es, t))
    decreases es
  {
    hide ParseEntry, EncodeEntry, ParseValue, EncodeValue;
    if es == [] {
      assert EncodeEntries(es) + t == t;
    } else {
      Append(EncodeEntry(es[0]), EncodeEntries(es[1..]), t);
      ParseEncodedEntry(fc, es[0], EncodeEntries(es[1..]) + t);
      ParseEncodedEntries(fc, es[1..], t);
      assert es == [es[0]] + es[1..];
    }
  }

  lemma ParseEncodedArgs(fc: Floats, vs: seq<Value>, t: Octets)
    requires AllFit(vs)
    ensures ParseArray(fc, EncodeArgs(vs) + t) == Some((vs, t))
  {
    Append(WriteCount(KArray, |vs|), EncodeAll(vs), t);
    ParseWrittenArrayLength(|vs|, EncodeAll(vs) + t);
    ParseEncodedValues(fc, vs, t);
  }

  lemma ParseEncodedRequest(fc: Floats, r: Request, t: Octets)
    requires RequestFits(r)
    ensures ParseRequest(fc, EncodeRequest(r) + t) == Some((r, t))
  {
    hide ReadHead, EncodeArgs, ParseArray, ReadBlob;
    var args := EncodeArgs(r.args) + t;
    var command := WriteStr(r.command) + args;
    var id := WriteUint(r.id) + command;
    assert EncodeRequest(r) + t == WriteCount(KArray, 3) + id;
    ReadWriteCount(KArray, 3, id);
    ParseWrittenFrameId(r.id, command);
    assert ReadStr(command) == Some((r.command, args)) by {
      ReadWriteBlob(KStr, r.command, args);
    }
    ParseEncodedArgs(fc, r.args, t);
  }

  lemma ParseEncodedResult(fc: Floats, r: Response, t: Octets)
    requires ResponseFits(r)
    ensures ParseResult(fc, r.id, EncodeResult(r) + t) == Some((r, t))
  {
    hide ReadHead, ReadCount, ReadBlob, EncodeTag, WriteCount, ParseValue, EncodeValue;
    match r {
      case ResponseOk(_, v) =>
        Append(EncodeTag(OK), EncodeValue(v), t);
        ReadTag(OK, EncodeValue(v) + t);
        ParseEncodedValue(fc, v, t);
      case ResponseErr(_, m) =>
        Append(EncodeTag(ERR), WriteStr(m), t);
        ReadTag(ERR, WriteStr(m) + t);
        ReadWriteBlob(KStr, m, t);
    }
  }

  lemma ParseEncodedResponse(fc: Floats, r: Response, t: Octets)
    requires ResponseFits(r)
    ensures ParseResponse(fc, EncodeResponse(r) + t) == Some((r, t))
  {
    var result := EncodeResult(r) + t;
    var id := WriteUint(r.id) + result;
    assert EncodeResponse(r) + t == WriteCount(KArray, 2) + id by {
      Append(WriteCount(KArray, 2), WriteUint(r.id) + EncodeResult(r), t);
      Append(WriteUint(r.id), EncodeResult(r), t);
    }
    ParseWrittenArrayLength(2, id);
    ParseWrittenFrameId(r.id, result);
    ParseEncodedResult(fc, r, t);
  }

  // --- bytes decide equality ---

  /** No encoding is a prefix of another's, and equal encodings mean equal values. */
  lemma EncodingsArePrefixFree(v: Value, w: Value, t: Octets, u: Octets)
    requires Fits(v) && Fits(w) && EncodeValue(v) + t == EncodeValue(w) + u
    ensures v == w && t == u
  {
    var fc := Floats(_ => 0, _ => 0);
    ParseEncodedValue(fc, v, t);
    ParseEncodedValue(fc, w, u);
  }

  lemma EqualIffSameBytes(v: Value, w: Value)
    requires Fits(v) && Fits(w)
    ensures Equal(v, w) <==> EncodeValue(v) == EncodeValue(w)
  {
    EqualIsIdentity(v, w);
    if EncodeValue(v) == EncodeValue(w) {
      EncodingsArePrefixFree(v, w, [], []);
    }
  }

  /** The id decoder accepts exactly the u32 numbers, in any integer format. */
  lemma FrameIdIffU32(s: Octets)
    ensures ParseFrameId(s).Some? <==>
      ReadHead(s).Some? && ReadHead(s).value.0.HInt? && 0 <= ReadHead(s).value.0.n <= 0xFFFF_FFFF
    ensures ParseFrameId(s).Some? ==> HInt(ParseFrameId(s).value.0) == ReadHead(s).value.0
  {
  }
}
