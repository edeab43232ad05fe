/**
 The body codec of wire/codec.go as functions on byte sequences: what the
 encoder appends for each message, and what the tolerant decoder makes of any
 input. A parse returns the decoded item with the bytes behind it, or None for
 every decode error (the source's errors differ in text only).
 */
module Codec {
  import opened Wrappers
  import opened MsgPack
  import MsgPackObject
  import opened Values

  // Variant tags, result arms and legacy field names, in ASCII.
  const NULL: Octets := [0x4e, 0x75, 0x6c, 0x6c]
  const BOOL: Octets := [0x42, 0x6f, 0x6f, 0x6c]
  const INT: Octets := [0x49, 0x6e, 0x74]
  const FLOAT: Octets := [0x46, 0x6c, 0x6f, 0x61, 0x74]
  const BYTES: Octets := [0x42, 0x79, 0x74, 0x65, 0x73]
  const STR: Octets := [0x53, 0x74, 0x72]
  const ARRAY: Octets := [0x41, 0x72, 0x72, 0x61, 0x79]
  const MAP: Octets := [0x4d, 0x61, 0x70]
  const OK: Octets := [0x4f, 0x6b]
  const ERR: Octets := [0x45, 0x72, 0x72]
  const ID: Octets := [0x69, 0x64]
  const COMMAND: Octets := [0x63, 0x6f, 0x6d, 0x6d, 0x61, 0x6e, 0x64]
  const ARGS: Octets := [0x61, 0x72, 0x67, 0x73]

  /** The two rounding conversions of the host language, as bit patterns:
      float64(int64) and float64(float32). Nothing below depends on what they are. */
  datatype Floats = Floats(ofInt: int64 -> u64, ofFloat32: u32 -> u64)

  // --- encoding ---

  function EncodeTag(name: Octets): Octets { WriteCount(KMap, 1) + WriteStr(name) }

  function EncodeValue(v: Value): Octets
    decreases v
  {
    match v
    case Null => WriteStr(NULL)
    case Bool(b) => EncodeTag(BOOL) + WriteBool(b)
    case Int(i) => EncodeTag(INT) + WriteInt(i)
    case Float(bits) => EncodeTag(FLOAT) + WriteFloat64(bits)
    case Bytes(d) => EncodeTag(BYTES) + WriteBin(d)
    case Str(s) => EncodeTag(STR) + WriteStr(s)
    case Array(vs) => EncodeTag(ARRAY) + (WriteCount(KArray, |vs|) + EncodeAll(vs))
    case Map(es) => EncodeTag(MAP) + (WriteCount(KArray, |es|) + EncodeEntries(es))
  }

  function EncodeAll(vs: seq<Value>): Octets
    decreases vs
  {
    if vs == [] then [] else EncodeValue(vs[0]) + EncodeAll(vs[1..])
  }

  function EncodeEntry(e: Entry): Octets
    decreases e
  {
    WriteCount(KArray, 2) + (EncodeValue(e.key) + EncodeValue(e.val))
  }

  function EncodeEntries(es: seq<Entry>): Octets
    decreases es
  {
    if es == [] then [] else EncodeEntry(es[0]) + EncodeEntries(es[1..])
  }

  function EncodeArgs(vs: seq<Value>): Octets { WriteCount(KArray, |vs|) + EncodeAll(vs) }

  function EncodeRequest(r: Request): Octets {
    WriteCount(KArray, 3) + (WriteUint(r.id) + (WriteStr(r.command) + EncodeArgs(r.args)))
  }

  function EncodeResult(r: Response): Octets {
    match r
    case ResponseErr(_, m) => EncodeTag(ERR) + WriteStr(m)
    case ResponseOk(_, v) => EncodeTag(OK) + EncodeValue(v)
  }

  function EncodeResponse(r: Response): Octets {
    WriteCount(KArray, 2) + (WriteUint(r.id) + EncodeResult(r))
  }

  // --- code classes ---

  predicate IsStringCode(c: byte) { 0xa0 <= c <= 0xbf || c == 0xd9 || c == 0xda || c == 0xdb }

  predicate IsMapCode(c: byte) { 0x80 <= c <= 0x8f || c == 0xde || c == 0xdf }

  predicate IsArrayCode(c: byte) { 0x90 <= c <= 0x9f || c == 0xdc || c == 0xdd }

  predicate IsIntCode(c: byte) {
    c <= 0x7f || c >= 0xe0 || c in {0xcc, 0xcd, 0xce, 0xcf, 0xd0, 0xd1, 0xd2, 0xd3}
  }

  // --- decoding ---

  function ParseFrameId(s: Octets): (r: Option<(u32, Octets)>)
    ensures r.Some? ==> |r.value.1| < |s|
  {
    var (u, rest) :- ReadUint64(s);
    if u > 0xFFFF_FFFF then None else Some((u, rest))
  }

  function ParseFloat(fc: Floats, s: Octets): (r: Option<(u64, Octets)>)
    ensures r.Some? ==> |r.value.1| < |s|
  {
    if s == [] then None
    else if IsIntCode(s[0]) then
      var (i, rest) :- ReadInt64(s);
      Some((fc.ofInt(i), rest))
    else
      var (h, rest) :- ReadHead(s);
      FloatBitsFit(s);
      match h
      case HFloat32(b) => Some((fc.ofFloat32(b), rest))
      case HFloat64(b) => Some((b, rest))
      case _ => None
  }

  /** The items of a legacy Bytes payload: n integers in byte range. */
  function ParseByteItems(s: Octets, n: nat): (r: Option<(Octets, Octets)>)
    ensures r.Some? ==> |r.value.1| + n <= |s| && |r.value.0| == n
    decreases n
  {
    if n == 0 then Some(([], s))
    else
      var (u, rest) :- ReadUint64(s);
      if u > 255 then None
      else
        var (others, rest') :- ParseByteItems(rest, n - 1);
        Some(([u] + others, rest'))
  }

  function ParseBytes(s: Octets): (r: Option<(Octets, Octets)>)
    ensures r.Some? ==> |r.value.1| < |s|
  {
    if s == [] then None
    else if IsArrayCode(s[0]) then
      var (n, rest) :- ReadCount(KArray, s);
      ParseByteItems(rest, n)
    else ReadBin(s)
  }

  function ParseValue(fc: Floats, s: Octets): (r: Option<(Value, Octets)>)
    ensures r.Some? ==> |r.value.1| < |s|
    decreases |s|, 0
  {
    if s == [] then None
    else if IsStringCode(s[0]) then
      var (name, rest) :- ReadStr(s);
      if name == NULL then Some((Null, rest)) else None
    else if IsMapCode(s[0]) then
      var (n, rest) :- ReadCount(KMap, s);
      if n != 1 then None
      else
        var (tag, payload) :- ReadStr(rest);
        ParseTagged(fc, tag, payload)
    else None
  }

  function ParseTagged(fc: Floats, tag: Octets, s: Octets): (r: Option<(Value, Octets)>)
    ensures r.Some? ==> |r.value.1| < |s|
    decreases |s|, 3
  {
    if tag == BOOL then
      var (b, rest) :- ReadBool(s);
      Some((Bool(b), rest))
    else if tag == INT then
      var (i, rest) :- ReadInt64(s);
      Some((Int(i), rest))
    else if tag == FLOAT then
      var (bits, rest) :- ParseFloat(fc, s);
      Some((Float(bits), rest))
    else if tag == STR then
      var (str, rest) :- ReadStr(s);
      Some((Str(str), rest))
    else if tag == BYTES then
      var (d, rest) :- ParseBytes(s);
      Some((Bytes(d), rest))
    else if tag == ARRAY then
      var (vs, rest) :- ParseArray(fc, s);
      Some((Array(vs), rest))
    else if tag == MAP then
      var (es, rest) :- ParsePairs(fc, s);
      Some((Map(es), rest))
    else None
  }

  /** An array header, refused by its code when it is anything else. */
  function ParseArrayLength(s: Octets): (r: Option<(nat, Octets)>)
    ensures r.Some? ==> |r.value.1| < |s|
  {
    if s == [] || !IsArrayCode(s[0]) then None else ReadCount(KArray, s)
  }

  function ParseArray(fc: Floats, s: Octets): (r: Option<(seq<Value>, Octets)>)
    ensures r.Some? ==> |r.value.1| < |s|
    decreases |s|, 2
  {
    var (n, rest) :- ParseArrayLength(s);
    ParseValues(fc, rest, n)
  }

  function ParseValues(fc: Floats, s: Octets, n: nat): (r: Option<(seq<Value>, Octets)>)
    ensures r.Some? ==> |r.value.1| <= |s| && |r.value.0| == n
    decreases |s|, 1
  {
    if n == 0 then Some(([], s))
    else
      var (v, rest) :- ParseValue(fc, s);
      var (vs, rest') :- ParseValues(fc, rest, n - 1);
      Some(([v] + vs, rest'))
  }

  function ParsePairs(fc: Floats, s: Octets): (r: Option<(seq<Entry>, Octets)>)
    ensures r.Some? ==> |r.value.1| < |s|
    decreases |s|, 2
  {
    var (n, rest) :- ParseArrayLength(s);
    ParseEntries(fc, rest, n)
  }

  function ParseEntry(fc: Floats, s: Octets): (r: Option<(Entry, Octets)>)
    ensures r.Some? ==> |r.value.1| < |s|
    decreases |s|, 1
  {
    var (n, rest) :- ParseArrayLength(s);
    if n != 2 then None
    else
      var (key, rest') :- ParseValue(fc, rest);
      var (val, rest'') :- ParseValue(fc, rest');
      Some((Entry(key, val), rest''))
  }

  function ParseEntries(fc: Floats, s: Octets, n: nat): (r: Option<(seq<Entry>, Octets)>)
    ensures r.Some? ==> |r.value.1| <= |s| && |r.value.0| == n
    decreases |s|, 2
  {
    if n == 0 then Some(([], s))
    else
      var (e, rest) :- ParseEntry(fc, s);
      var (es, rest') :- ParseEntries(fc, rest, n - 1);
      Some(([e] + es, rest'))
  }

  /** What a map-shaped Request has supplied so far; a later duplicate replaces an earlier one. */
  datatype Partial = Partial(id: Option<u32>, command: Option<Octets>, args: Option<seq<Value>>)

  const NOTHING := Partial(None, None, None)

  /** The payload of one key: unknown keys are skipped over. */
  function ParsePayload(fc: Floats, key: Octets, s: Octets, got: Partial): (r: Option<(Partial, Octets)>)
    ensures r.Some? ==> |r.value.1| < |s|
  {
    if key == ID then
      var (id, rest) :- ParseFrameId(s);
      Some((got.(id := Some(id)), rest))
    else if key == COMMAND then
      var (command, rest) :- ReadStr(s);
      Some((got.(command := Some(command)), rest))
    else if key == ARGS then
      var (args, rest) :- ParseArray(fc, s);
      Some((got.(args := Some(args)), rest))
    else
      var rest :- MsgPackObject.Skip(s);
      Some((got, rest))
  }

  function ParseField(fc: Floats, s: Octets, got: Partial): (r: Option<(Partial, Octets)>)
    ensures r.Some? ==> |r.value.1| < |s|
  {
    var (key, payload) :- ReadStr(s);
    ParsePayload(fc, key, payload, got)
  }

  function ParseFields(fc: Floats, s: Octets, n: nat, got: Partial): (r: Option<(Partial, Octets)>)
    ensures r.Some? ==> |r.value.1| <= |s|
    decreases n
  {
    if n == 0 then Some((got, s))
    else
      var (got', rest) :- ParseField(fc, s, got);
      ParseFields(fc, rest, n - 1, got')
  }

  function Complete(got: Partial): Option<Request> {
    if got.id.None? || got.command.None? || got.args.None? then None
    else Some(Request(got.id.value, got.command.value, got.args.value))
  }

  function ParseMapShaped(fc: Floats, s: Octets): (r: Option<(Request, Octets)>)
    ensures r.Some? ==> |r.value.1| < |s|
  {
    var (n, rest) :- ReadCount(KMap, s);
    var (got, rest') :- ParseFields(fc, rest, n, NOTHING);
    var req :- Complete(got);
    Some((req, rest'))
  }

  function ParseCall(fc: Floats, id: u32, s: Octets): (r: Option<(Request, Octets)>)
    ensures r.Some? ==> |r.value.1| < |s|
  {
    var (command, rest) :- ReadStr(s);
    var (args, rest') :- ParseArray(fc, rest);
    Some((Request(id, command, args), rest'))
  }

  function ParseArrayShaped(fc: Floats, s: Octets): (r: Option<(Request, Octets)>)
    ensures r.Some? ==> |r.value.1| < |s|
  {
    var (n, rest) :- ReadCount(KArray, s);
    if n != 3 then None
    else
      var (id, rest') :- ParseFrameId(rest);
      ParseCall(fc, id, rest')
  }

  function ParseRequest(fc: Floats, s: Octets): (r: Option<(Request, Octets)>)
    ensures r.Some? ==> |r.value.1| < |s|
  {
    if s == [] then None
    else if IsArrayCode(s[0]) then ParseArrayShaped(fc, s)
    else if IsMapCode(s[0]) then ParseMapShaped(fc, s)
    else None
  }

  function ParseResult(fc: Floats, id: u32, s: Octets): (r: Option<(Response, Octets)>)
    ensures r.Some? ==> |r.value.1| < |s|
  {
    if s == [] || !IsMapCode(s[0]) then None
    else
      var (n, rest) :- ReadCount(KMap, s);
      if n != 1 then None
      else
        var (arm, payload) :- ReadStr(rest);
        ParseArm(fc, id, arm, payload)
  }

  function ParseArm(fc: Floats, id: u32, arm: Octets, s: Octets): (r: Option<(Response, Octets)>)
    ensures r.Some? ==> |r.value.1| < |s|
  {
    if arm == OK then
      var (v, rest) :- ParseValue(fc, s);
      Some((ResponseOk(id, v), rest))
    else if arm == ERR then
      var (m, rest) :- ReadStr(s);
      Some((ResponseErr(id, m), rest))
    else None
  }

  function ParseResponse(fc: Floats, s: Octets): (r: Option<(Response, Octets)>)
    ensures r.Some? ==> |r.value.1| < |s|
  {
    var (n, rest) :- ParseArrayLength(s);
    if n != 2 then None
    else
      var (id, rest') :- ParseFrameId(rest);
      ParseResult(fc, id, rest')
  }

  /** A body decoder looks at one message and ignores whatever follows it. */
  function DecodeRequestBody(fc: Floats, body: Octets): Option<Request> {
    var (req, _) :- ParseRequest(fc, body);
    Some(req)
  }

  function DecodeResponseBody(fc: Floats, body: Octets): Option<Response> {
    var (resp, _) :- ParseResponse(fc, body);
    Some(resp)
  }

  // --- one turn of each decoding loop ---

  /** A parse whose item comes behind items already read. */
  function Prepend<T>(out: seq<T>, parsed: Option<(seq<T>, Octets)>): Option<(seq<T>, Octets)> {
    match parsed
    case None => None
    case Some((items, rest)) => Some((out + items, rest))
  }

  lemma PrependNothing<T>(parsed: Option<(seq<T>, Octets)>)
    ensures Prepend([], parsed) == parsed
  {
    assert parsed.Some? ==> [] + parsed.value.0 == parsed.value.0;
  }

  lemma PrependEnd<T>(out: seq<T>, rest: Octets)
    ensures Prepend(out, Some(([], rest))) == Some((out, rest))
  {
    assert out + [] == out;
  }

  lemma PrependOne<T>(out: seq<T>, x: T, parsed: Option<(seq<T>, Octets)>)
    ensures Prepend(out, Prepend([x], parsed)) == Prepend(out + [x], parsed)
  {
    assert parsed.Some? ==> out + ([x] + parsed.value.0) == out + [x] + parsed.value.0;
  }

  lemma FieldsStep(fc: Floats, s: Octets, n: nat, got: Partial)
    requires n > 0
    ensures ParseFields(fc, s, n, got) ==
      if ParseField(fc, s, got).None? then None
      else ParseFields(fc, ParseField(fc, s, got).value.1, n - 1, ParseField(fc, s, got).value.0)
  {
  }

  lemma FieldsEnd(fc: Floats, s: Octets, got: Partial)
    ensures ParseFields(fc, s, 0, got) == Some((got, s))
  {
  }

  lemma ByteItemsStep(s: Octets, n: nat)
    requires n > 0
    ensures ParseByteItems(s, n) ==
      if ReadUint64(s).None? || ReadUint64(s).value.0 > 255 then None
      else Prepend([ReadUint64(s).value.0], ParseByteItems(ReadUint64(s).value.1, n - 1))
  {
  }

  lemma ByteItemsEnd(s: Octets)
    ensures ParseByteItems(s, 0) == Some(([], s))
  {
  }

  lemma ValuesStep(fc: Floats, s: Octets, n: nat)
    requires n > 0
    ensures ParseValues(fc, s, n) ==
      if ParseValue(fc, s).None? then None
      else Prepend([ParseValue(fc, s).value.0], ParseValues(fc, ParseValue(fc, s).value.1, n - 1))
  {
  }

  lemma ValuesEnd(fc: Floats, s: Octets)
    ensures ParseValues(fc, s, 0) == Some(([], s))
  {
  }

  lemma EntriesStep(fc: Floats, s: Octets, n: nat)
    requires n > 0
    ensures ParseEntries(fc, s, n) ==
      if ParseEntry(fc, s).None? then None
      else Prepend([ParseEntry(fc, s).value.0], ParseEntries(fc, ParseEntry(fc, s).value.1, n - 1))
  {
  }

  lemma EntriesEnd(fc: Floats, s: Octets)
    ensures ParseEntries(fc, s, 0) == Some(([], s))
  {
  }
}
