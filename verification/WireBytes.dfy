/**
 The wire format in plain bytes: what the encoder writes for every message,
 spelled out, and the byte strings that the encoder's own tests pin.
 */
module WireBytes {
  import opened MsgPack
  import opened MsgPackFormats
  import MsgPackObject
  import opened Values
  import opened Codec
  import Frame

  lemma NamesAreSpelled()
    ensures Spells(NULL, "Null") && Spells(BOOL, "Bool") && Spells(INT, "Int") && Spells(FLOAT, "Float")
    ensures Spells(BYTES, "Bytes") && Spells(STR, "Str") && Spells(ARRAY, "Array") && Spells(MAP, "Map")
    ensures Spells(OK, "Ok") && Spells(ERR, "Err") && Spells(ID, "id") && Spells(COMMAND, "command") && Spells(ARGS, "args")
  {
  }

  // --- numbers, most significant byte first ---

  lemma CodedField(c: byte, field: Octets)
    requires FieldWidth(c) == |field|
    ensures Coded(c, FromBE(field)) == [c] + field
  {
    hide FieldWidth, FromBE;
    MsgPackObject.BEOfFromBE(field);
  }

  lemma CodedOne(c: byte, a: byte)
    requires FieldWidth(c) == 1
    ensures Coded(c, a) == [c, a]
  {
    hide FieldWidth, FromBE, Coded;
    FieldOfOne(a);
    CodedField(c, [a]);
  }

  lemma CodedTwo(c: byte, a: byte, b: byte)
    requires FieldWidth(c) == 2
    ensures Coded(c, 0x100 * a + b) == [c, a, b]
  {
    hide FieldWidth, FromBE, Coded;
    FieldOfTwo(a, b);
    CodedField(c, [a, b]);
  }

  lemma CodedFour(k: byte, a: byte, b: byte, c: byte, d: byte)
    requires FieldWidth(k) == 4
    ensures Coded(k, 0x100_0000 * a + 0x1_0000 * b + 0x100 * c + d) == [k, a, b, c, d]
  {
    hide FieldWidth, FromBE, Coded;
    FieldOfFour(a, b, c, d);
    CodedField(k, [a, b, c, d]);
  }

  lemma BareWidth(c: byte)
    requires c <= 0xbf || c >= 0xe0
    ensures FieldWidth(c) == 0
  {
  }

  lemma BareByte(c: byte)
    requires c <= 0xbf || c >= 0xe0
    ensures FieldWidth(c) == 0 && Coded(c, 0) == [c]
  {
    hide FieldWidth;
    BareWidth(c);
  }

  lemma IntegerWidths()
    ensures FieldWidth(0xcc) == 1 && FieldWidth(0xcd) == 2 && FieldWidth(0xce) == 4 && FieldWidth(0xcf) == 8
    ensures FieldWidth(0xd0) == 1 && FieldWidth(0xd1) == 2 && FieldWidth(0xd2) == 4 && FieldWidth(0xd3) == 8
  {
  }

  lemma BlobWidths()
    ensures FieldWidth(0xd9) == 1 && FieldWidth(0xda) == 2 && FieldWidth(0xdb) == 4
    ensures FieldWidth(0xc4) == 1 && FieldWidth(0xc5) == 2 && FieldWidth(0xc6) == 4
  {
  }

  lemma ListWidths()
    ensures FieldWidth(0xdc) == 2 && FieldWidth(0xdd) == 4 && FieldWidth(0xde) == 2 && FieldWidth(0xdf) == 4
  {
  }

  /** An id, or any non-negative integer: its bytes, in the shortest format that holds them. */
  lemma UintBytes(a: byte, b: byte, c: byte, d: byte)
    ensures WriteUint(d) == if d <= 0x7f then [d] else [0xcc, d]
    ensures c > 0 ==> WriteUint(0x100 * c + d) == [0xcd, c, d]
    ensures a > 0 || b > 0 ==> WriteUint(0x100_0000 * a + 0x1_0000 * b + 0x100 * c + d) == [0xce, a, b, c, d]
  {
    hide FieldWidth, Coded;
    IntegerWidths();
    if d <= 0x7f { BareByte(d); }
    CodedOne(0xcc, d);
    CodedTwo(0xcd, c, d);
    CodedFour(0xce, a, b, c, d);
  }

  lemma LongUintBytes(s: Octets)
    requires |s| == 8 && 0xffff_ffff < FromBE(s) < 0x1_0000_0000_0000_0000
    ensures WriteUint(FromBE(s)) == [0xcf] + s
  {
    hide FieldWidth, Coded, FromBE;
    IntegerWidths();
    CodedField(0xcf, s);
  }

  /** A negative Int: two's complement, in the shortest format that holds it. */
  lemma NegativeBytes(a: byte, b: byte, c: byte, d: byte)
    ensures d >= 0xe0 ==> WriteInt(d - 0x100) == [d]
    ensures 0x80 <= d < 0xe0 ==> WriteInt(d - 0x100) == [0xd0, d]
    ensures 0x8000 <= 0x100 * c + d < 0xff80 ==> WriteInt(0x100 * c + d - 0x1_0000) == [0xd1, c, d]
    ensures var n := 0x100_0000 * a + 0x1_0000 * b + 0x100 * c + d;
      0x8000_0000 <= n < 0xffff_8000 ==> WriteInt(n - 0x1_0000_0000) == [0xd2, a, b, c, d]
  {
    hide FieldWidth, Coded, WriteUint;
    IntegerWidths();
    if d >= 0xe0 { BareByte(d); }
    CodedOne(0xd0, d);
    CodedTwo(0xd1, c, d);
    CodedFour(0xd2, a, b, c, d);
  }

  lemma LongNegativeBytes(s: Octets)
    requires |s| == 8 && 0x8000_0000_0000_0000 <= FromBE(s) < 0xffff_ffff_8000_0000
    ensures WriteInt(FromBE(s) - 0x1_0000_0000_0000_0000) == [0xd3] + s
  {
    hide FieldWidth, Coded, FromBE, WriteUint;
    IntegerWidths();
    CodedField(0xd3, s);
  }

  /** The length of a string, of bytes, of an array, of a map. */
  lemma ShortCountBytes(n: byte)
    ensures n < 0x20 ==> WriteCount(KStr, n) == [0xa0 + n]
    ensures n >= 0x20 ==> WriteCount(KStr, n) == [0xd9, n]
    ensures WriteCount(KBin, n) == [0xc4, n]
    ensures n < 0x10 ==> WriteCount(KArray, n) == [0x90 + n] && WriteCount(KMap, n) == [0x80 + n]
    ensures n >= 0x10 ==> WriteCount(KArray, n) == [0xdc, 0, n] && WriteCount(KMap, n) == [0xde, 0, n]
  {
    hide FieldWidth, Coded;
    BlobWidths();
    ListWidths();
    if n < 0x20 { BareByte(0xa0 + n); }
    if n < 0x10 {
      BareByte(0x90 + n);
      BareByte(0x80 + n);
    }
    CodedOne(0xd9, n);
    CodedOne(0xc4, n);
    CodedTwo(0xdc, 0, n);
    CodedTwo(0xde, 0, n);
  }

  lemma LongCountBytes(a: byte, b: byte, c: byte, d: byte, n: nat)
    requires n == 0x100_0000 * a + 0x1_0000 * b + 0x100 * c + d && n >= 0x100
    ensures n < 0x1_0000 ==> WriteCount(KStr, n) == [0xda, c, d] && WriteCount(KBin, n) == [0xc5, c, d]
    ensures n < 0x1_0000 ==> WriteCount(KArray, n) == [0xdc, c, d] && WriteCount(KMap, n) == [0xde, c, d]
    ensures n >= 0x1_0000 ==> WriteCount(KStr, n) == [0xdb, a, b, c, d] && WriteCount(KBin, n) == [0xc6, a, b, c, d]
    ensures n >= 0x1_0000 ==> WriteCount(KArray, n) == [0xdd, a, b, c, d] && WriteCount(KMap, n) == [0xdf, a, b, c, d]
  {
    hide FieldWidth, Coded;
    BlobWidths();
    ListWidths();
    CodedTwo(0xda, c, d);
    CodedTwo(0xc5, c, d);
    CodedTwo(0xdc, c, d);
    CodedTwo(0xde, c, d);
    CodedFour(0xdb, a, b, c, d);
    CodedFour(0xc6, a, b, c, d);
    CodedFour(0xdd, a, b, c, d);
    CodedFour(0xdf, a, b, c, d);
  }

  // --- messages ---

  /** Null is a bare string; every other Value is a map of its tag and its payload. */
  lemma ValueBytes(v: Value)
    ensures match v
      case Null => EncodeValue(v) == [0xa4, 0x4e, 0x75, 0x6c, 0x6c]
      case Bool(b) => EncodeValue(v) == [0x81, 0xa4, 0x42, 0x6f, 0x6f, 0x6c, if b then 0xc3 else 0xc2]
      case Int(i) => EncodeValue(v) == [0x81, 0xa3, 0x49, 0x6e, 0x74] + WriteInt(i)
      case Float(bits) => EncodeValue(v) == [0x81, 0xa5, 0x46, 0x6c, 0x6f, 0x61, 0x74] + ([0xcb] + BE(bits, 8))
      case Bytes(d) => EncodeValue(v) == [0x81, 0xa5, 0x42, 0x79, 0x74, 0x65, 0x73] + (WriteCount(KBin, |d|) + d)
      case Str(s) => EncodeValue(v) == [0x81, 0xa3, 0x53, 0x74, 0x72] + (WriteCount(KStr, |s|) + s)
      case Array(vs) =>
        EncodeValue(v) == [0x81, 0xa5, 0x41, 0x72, 0x72, 0x61, 0x79] + (WriteCount(KArray, |vs|) + EncodeAll(vs))
      case Map(es) => EncodeValue(v) == [0x81, 0xa3, 0x4d, 0x61, 0x70] + (WriteCount(KArray, |es|) + EncodeEntries(es))
  {
    hide BE, WriteInt, EncodeAll, EncodeEntries;
    match v {
      case Null => TextBytes(NULL);
      case Bool(b) => TagBytes(BOOL); NoField();
      case Int(_) => TagBytes(INT);
      case Float(_) => TagBytes(FLOAT);
      case Bytes(_) => TagBytes(BYTES);
      case Str(_) => TagBytes(STR);
      case Array(_) => TagBytes(ARRAY);
      case Map(_) => TagBytes(MAP);
    }
  }

  lemma NoField()
    ensures BE(0, 0) == []
  {
  }

  lemma TextBytes(name: Octets)
    requires |name| < 0x20
    ensures WriteStr(name) == [0xa0 + |name|] + name
  {
    hide WriteCount;
    ShortCountBytes(|name|);
  }

  lemma TagBytes(name: Octets)
    requires |name| < 0x20
    ensures EncodeTag(name) == [0x81, 0xa0 + |name|] + name
  {
    hide WriteCount, WriteStr;
    TextBytes(name);
    ShortCountBytes(1);
    assert [0x81] + ([0xa0 + |name|] + name) == [0x81, 0xa0 + |name|] + name;
  }

  /** A list is its elements one after the other; an entry of a Map is an array of two. */
  lemma ListBytes(v: Value, vs: seq<Value>, e: Entry, es: seq<Entry>)
    ensures EncodeAll([]) == [] && EncodeAll([v] + vs) == EncodeValue(v) + EncodeAll(vs)
    ensures EncodeEntries([]) == []
    ensures EncodeEntries([e] + es) == [0x92] + (EncodeValue(e.key) + EncodeValue(e.val)) + EncodeEntries(es)
  {
    hide WriteCount, EncodeValue;
    assert ([v] + vs)[1..] == vs && ([e] + es)[1..] == es;
    ShortCountBytes(2);
  }

  /** [id, command, [args...]]. */
  lemma RequestBytes(r: Request)
    ensures EncodeRequest(r)
      == [0x93] + (WriteUint(r.id) + (WriteCount(KStr, |r.command|) + r.command + (WriteCount(KArray, |r.args|) + EncodeAll(r.args))))
  {
    hide WriteCount, WriteUint, EncodeAll;
    ShortCountBytes(3);
  }

  /** [id, {"Ok": value}] or [id, {"Err": text}]. */
  lemma ResponseBytes(r: Response)
    ensures EncodeResponse(r) == [0x92] + (WriteUint(r.id) + (match r
      case ResponseOk(_, v) => [0x81, 0xa2, 0x4f, 0x6b] + EncodeValue(v)
      case ResponseErr(_, m) => [0x81, 0xa3, 0x45, 0x72, 0x72] + (WriteCount(KStr, |m|) + m)))
  {
    hide WriteCount, WriteUint, EncodeValue, EncodeTag;
    ShortCountBytes(2);
    TagBytes(OK);
    TagBytes(ERR);
  }

  // --- the pinned frames ---

  const PING: Octets := [0x50, 0x49, 0x4e, 0x47]
  const PONG: Octets := [0x50, 0x4f, 0x4e, 0x47]

  /** Request 1, PING without arguments, and its frame. */
  lemma PingFrame()
    ensures Frame.FrameOf(EncodeRequest(Request(1, PING, [])))
      == [0x08, 0, 0, 0, 0x93, 0x01, 0xa4, 0x50, 0x49, 0x4e, 0x47, 0x90]
  {
    hide EncodeRequest, WriteCount, WriteUint, EncodeAll, Frame.LE32;
    var r := Request(1, PING, []);
    var body := [0x93, 0x01, 0xa4, 0x50, 0x49, 0x4e, 0x47, 0x90];
    RequestBytes(r);
    UintBytes(0, 0, 0, 1);
    ShortCountBytes(4);
    ShortCountBytes(0);
    ListBytes(Null, [], Entry(Null, Null), []);
    assert EncodeRequest(r) == [0x93] + ([0x01] + ([0xa4] + PING + ([0x90] + []))) == body;
    Frame.LE32Bytes(8, 0, 0, 0);
  }

  /** Response 1, Ok("PONG"), and its frame. */
  lemma PongFrame()
    ensures Frame.FrameOf(EncodeResponse(ResponseOk(1, Str(PONG)))) == [0x10, 0, 0, 0, 0x92, 0x01]
      + [0x81, 0xa2, 0x4f, 0x6b, 0x81, 0xa3, 0x53, 0x74, 0x72, 0xa4, 0x50, 0x4f, 0x4e, 0x47]
  {
    hide EncodeResponse, EncodeValue, WriteCount, WriteUint, Frame.LE32;
    var r := ResponseOk(1, Str(PONG));
    ResponseBytes(r);
    UintBytes(0, 0, 0, 1);
    ValueBytes(Str(PONG));
    ShortCountBytes(4);
    var body := [0x92, 0x01] + [0x81, 0xa2, 0x4f, 0x6b, 0x81, 0xa3, 0x53, 0x74, 0x72, 0xa4, 0x50, 0x4f, 0x4e, 0x47];
    assert EncodeResponse(r)
      == [0x92] + ([0x01] + ([0x81, 0xa2, 0x4f, 0x6b] + ([0x81, 0xa3, 0x53, 0x74, 0x72] + ([0xa4] + PONG)))) == body;
    Frame.LE32Bytes(16, 0, 0, 0);
  }

  /** The bare Null, Int(42), and Bytes as bin. */
  lemma PinnedValues()
    ensures EncodeValue(Null) == [0xa4, 0x4e, 0x75, 0x6c, 0x6c]
    ensures EncodeValue(Int(42)) == [0x81, 0xa3, 0x49, 0x6e, 0x74, 0x2a]
    ensures EncodeValue(Bytes([1, 2, 3, 255])) == [0x81, 0xa5, 0x42, 0x79, 0x74, 0x65, 0x73, 0xc4, 4, 1, 2, 3, 255]
  {
    hide EncodeValue, WriteCount, WriteUint;
    ValueBytes(Null);
    ValueBytes(Int(42));
    UintBytes(0, 0, 0, 42);
    ValueBytes(Bytes([1, 2, 3, 255]));
    ShortCountBytes(4);
  }
}
