/**
 The forms the decoder accepts but the encoder never writes: map-shaped
 Requests, Bytes payloads given as integer arrays, Float payloads given as
 integers.
 */
module Legacy {
  import opened Wrappers
  import opened MsgPack
  import opened MsgPackFormats
  import opened MsgPackObject
  import opened Values
  import opened Codec
  import opened CodecRoundTrip
  import opened CodecLocality
  import opened CodecMeaning

  // --- map-shaped Requests ---

  /** The bytes of one key and of its payload, in whatever formats the sender chose. */
  datatype Field = Field(key: Octets, payload: Octets)

  function Name(f: Field): Octets {
    if ReadStr(f.key).Some? then ReadStr(f.key).value.0 else []
  }

  /** The key is one string and the payload is one whole item of the sort the
      key asks for; UnknownFieldIff says what that is for any other key. */
  predicate IsField(fc: Floats, f: Field) {
    && ReadStr(f.key) == Some((Name(f), []))
    && ParsePayload(fc, Name(f), f.payload, NOTHING).Some?
    && ParsePayload(fc, Name(f), f.payload, NOTHING).value.1 == []
  }

  predicate IsUnknown(name: Octets) { name != ID && name != COMMAND && name != ARGS }

  /** These bytes are one whole well-formed MessagePack object. */
  ghost predicate IsObject(s: Octets) {
    exists o :: WellFormed(o) && Serialize(o) == s
  }

  lemma ObjectIffSkipped(s: Octets)
    ensures IsObject(s) <==> Skip(s) == Some([])
  {
    hide Skip, WellFormed, Serialize;
    if Skip(s) == Some([]) {
      var o := SkippedIsObject(s);
      Nothing(Serialize(o));
    }
    forall o | WellFormed(o) && Serialize(o) == s ensures Skip(s) == Some([]) {
      Nothing(s);
      SkipObject(o, []);
    }
  }

  /** An unknown key may carry any one well-formed MessagePack object. */
  lemma UnknownFieldIff(fc: Floats, f: Field)
    requires IsUnknown(Name(f))
    ensures IsField(fc, f) <==> ReadStr(f.key) == Some((Name(f), [])) && IsObject(f.payload)
  {
    hide Skip, IsObject;
    ObjectIffSkipped(f.payload);
  }

  ghost predicate AreFields(fc: Floats, fs: seq<Field>) {
    forall f | f in fs :: IsField(fc, f)
  }

  function FieldsBytes(fs: seq<Field>): Octets {
    if fs == [] then [] else fs[0].key + fs[0].payload + FieldsBytes(fs[1..])
  }

  function Learn(fc: Floats, f: Field, got: Partial): Partial {
    if IsField(fc, f) then ParsePayload(fc, Name(f), f.payload, got).value.0 else got
  }

  function LearnAll(fc: Floats, fs: seq<Field>, got: Partial): Partial {
    if fs == [] then got else LearnAll(fc, fs[1..], Learn(fc, fs[0], got))
  }

  lemma ParseIsField(fc: Floats, f: Field, got: Partial, t: Octets)
    requires IsField(fc, f)
    ensures ParseField(fc, f.key + f.payload + t, got) == Some((Learn(fc, f, got), t))
  {
    hide ReadHead;
    LocalBlob(KStr, f.key, f.payload + t);
    Append(f.key, f.payload, t);
    assert [] + (f.payload + t) == f.payload + t && [] + t == t;
    LocalPayload(fc, Name(f), f.payload, got, t);
  }

  lemma {:induction false} ParseAreFields(fc: Floats, fs: seq<Field>, got: Partial, t: Octets)
    requires AreFields(fc, fs)
    ensures ParseFields(fc, FieldsBytes(fs) + t, |fs|, got) == Some((LearnAll(fc, fs, got), t))
  {
    hide ParseField, Learn, IsField;
    if fs == [] {
      assert FieldsBytes(fs) + t == t;
    } else {
      var rest := FieldsBytes(fs[1..]) + t;
      assert FieldsBytes(fs) + t == fs[0].key + fs[0].payload + rest;
      ParseIsField(fc, fs[0], got, rest);
      ParseAreFields(fc, fs[1..], Learn(fc, fs[0], got), t);
    }
  }

  /** i is the last field of that name. */
  ghost predicate IsLast(fs: seq<Field>, name: Octets, i: nat) {
    i < |fs| && Name(fs[i]) == name && forall j | i < j < |fs| :: Name(fs[j]) != name
  }

  ghost predicate Absent(fs: seq<Field>, name: Octets) {
    forall f | f in fs :: Name(f) != name
  }

  lemma LearnKeeps(fc: Floats, f: Field, got: Partial)
    ensures Name(f) != ID ==> Learn(fc, f, got).id == got.id
    ensures Name(f) != COMMAND ==> Learn(fc, f, got).command == got.command
    ensures Name(f) != ARGS ==> Learn(fc, f, got).args == got.args
  {
  }

  /** A field that never comes again keeps what has been learned. */
  lemma {:induction false} AbsentKeeps(fc: Floats, fs: seq<Field>, got: Partial)
    ensures Absent(fs, ID) ==> LearnAll(fc, fs, got).id == got.id
    ensures Absent(fs, COMMAND) ==> LearnAll(fc, fs, got).command == got.command
    ensures Absent(fs, ARGS) ==> LearnAll(fc, fs, got).args == got.args
  {
    hide Name, Learn;
    if fs != [] {
      LearnKeeps(fc, fs[0], got);
      AbsentKeeps(fc, fs[1..], Learn(fc, fs[0], got));
      assert forall f | f in fs[1..] :: f in fs;
    }
  }

  /** The last field of each name decides, whatever the order and the duplicates. */
  lemma {:induction false} LastDecides(fc: Floats, fs: seq<Field>, got: Partial, i: nat)
    requires AreFields(fc, fs)
    ensures IsLast(fs, ID, i) ==> LearnAll(fc, fs, got).id == Learn(fc, fs[i], NOTHING).id != None
    ensures IsLast(fs, COMMAND, i) ==> LearnAll(fc, fs, got).command == Learn(fc, fs[i], NOTHING).command != None
    ensures IsLast(fs, ARGS, i) ==> LearnAll(fc, fs, got).args == Learn(fc, fs[i], NOTHING).args != None
    decreases fs
  {
    hide Name, ReadStr, ParseFrameId, ParseArray;
    if fs != [] {
      var got' := Learn(fc, fs[0], got);
      if i == 0 {
        assert IsField(fc, fs[0]);
        AbsentKeeps(fc, fs[1..], got');
      } else {
        LastDecides(fc, fs[1..], got', i - 1);
        assert i < |fs| ==> fs[1..][i - 1] == fs[i];
        assert forall j | i - 1 < j < |fs| - 1 :: fs[1..][j] == fs[j + 1];
      }
    }
  }

  // --- what a field says ---

  /** The payload is one integer, in any integer format. */
  predicate SaysId(f: Field, n: u32) { ReadHead(f.payload) == Some((HInt(n), [])) }

  /** The payload is one string, in any string format. */
  predicate SaysCommand(f: Field, text: Octets) { ReadHead(f.payload) == Some((HSized(KStr, |text|), text)) }

  /** The payload is one array, in any array format, of objects that mean these values. */
  ghost predicate SaysArgs(fc: Floats, f: Field, vs: seq<Value>) {
    exists o :: WellFormed(o) && Serialize(o) == f.payload && ArgsAt(fc, o) == Some(vs)
  }

  /** A key that is one string, and a payload that says what the key asks for. */
  ghost predicate IsWhole(fc: Floats, f: Field) {
    && ReadStr(f.key) == Some((Name(f), []))
    && (Name(f) == ID ==> exists n: u32 :: SaysId(f, n))
    && (Name(f) == COMMAND ==> exists text :: SaysCommand(f, text))
    && (Name(f) == ARGS ==> exists vs :: SaysArgs(fc, f, vs))
    && (IsUnknown(Name(f)) ==> IsObject(f.payload))
  }

  lemma IdPayload(f: Field, n: u32)
    ensures ParseFrameId(f.payload) == Some((n, [])) <==> SaysId(f, n)
  {
    hide ReadHead;
  }

  lemma CommandPayload(f: Field, text: Octets)
    ensures ReadStr(f.payload) == Some((text, [])) <==> SaysCommand(f, text)
  {
    hide ReadHead;
    if ReadCount(KStr, f.payload).Some? {
      var (n, rest) := ReadCount(KStr, f.payload).value;
      assert n <= |rest| ==> rest == rest[..n] + rest[n..];
      Nothing(text);
    }
  }

  lemma ArgsPayload(fc: Floats, f: Field, vs: seq<Value>)
    ensures ParseArray(fc, f.payload) == Some((vs, [])) <==> SaysArgs(fc, f, vs)
  {
    hide ParseArray, ArgsAt, WellFormed, Serialize, Skip;
    if ParseArray(fc, f.payload) == Some((vs, [])) {
      ArgsSkip(fc, f.payload);
      var o := SkippedIsObject(f.payload);
      Nothing(Serialize(o));
      ArgsMeaning(fc, o, []);
    }
    forall o | WellFormed(o) && Serialize(o) == f.payload && ArgsAt(fc, o) == Some(vs)
      ensures ParseArray(fc, f.payload) == Some((vs, []))
    {
      Nothing(Serialize(o));
      ArgsMeaning(fc, o, []);
    }
  }

  /** What is taken as a field is exactly a key and a payload that fits it, and what it
      says is what is learned. */
  lemma FieldSays(fc: Floats, f: Field)
    ensures IsField(fc, f) <==> IsWhole(fc, f)
    ensures IsField(fc, f) ==> (forall n: u32 :: Name(f) == ID && SaysId(f, n) <==> Learn(fc, f, NOTHING).id == Some(n))
    ensures IsField(fc, f) ==>
      (forall text :: Name(f) == COMMAND && SaysCommand(f, text) <==> Learn(fc, f, NOTHING).command == Some(text))
    ensures IsField(fc, f) ==> (forall vs :: Name(f) == ARGS && SaysArgs(fc, f, vs) <==> Learn(fc, f, NOTHING).args == Some(vs))
  {
    hide ParseFrameId, ReadStr, ParseArray, Skip, Name, SaysId, SaysCommand, SaysArgs, IsObject;
    forall n: u32 ensures ParseFrameId(f.payload) == Some((n, [])) <==> SaysId(f, n) { IdPayload(f, n); }
    forall text ensures ReadStr(f.payload) == Some((text, [])) <==> SaysCommand(f, text) { CommandPayload(f, text); }
    forall vs ensures ParseArray(fc, f.payload) == Some((vs, [])) <==> SaysArgs(fc, f, vs) { ArgsPayload(fc, f, vs); }
    if IsUnknown(Name(f)) {
      UnknownFieldIff(fc, f);
    } else if IsField(fc, f) {
      if Name(f) == ID { assert SaysId(f, ParseFrameId(f.payload).value.0); }
      if Name(f) == COMMAND { assert SaysCommand(f, ReadStr(f.payload).value.0); }
      if Name(f) == ARGS { assert SaysArgs(fc, f, ParseArray(fc, f.payload).value.0); }
    }
  }

  /** The payloads the encoder would write say what they were written for. */
  lemma WrittenFieldsSay(fc: Floats, f: Field, req: Request)
    requires RequestFits(req)
    ensures f.payload == WriteUint(req.id) ==> SaysId(f, req.id)
    ensures f.payload == WriteStr(req.command) ==> SaysCommand(f, req.command)
    ensures f.payload == EncodeArgs(req.args) ==> SaysArgs(fc, f, req.args)
  {
    hide ReadHead, WriteUint, WriteCount, ParseArray;
    ReadWriteUint(req.id, []);
    Nothing(WriteUint(req.id));
    ReadWriteCount(KStr, |req.command|, req.command);
    if f.payload == EncodeArgs(req.args) {
      EncodedArgs(fc, req.args);
      ArgsPayload(fc, f, req.args);
    }
  }

  lemma EncodedArgs(fc: Floats, vs: seq<Value>)
    requires AllFit(vs)
    ensures ParseArray(fc, EncodeArgs(vs)) == Some((vs, []))
  {
    ParseEncodedArgs(fc, vs, []);
    Nothing(EncodeArgs(vs));
  }

  /** The fields of these names that count: the last ones, and what they say. */
  ghost predicate LastSay(fc: Floats, fs: seq<Field>, i: nat, j: nat, k: nat, req: Request) {
    && IsLast(fs, ID, i) && SaysId(fs[i], req.id)
    && IsLast(fs, COMMAND, j) && SaysCommand(fs[j], req.command)
    && IsLast(fs, ARGS, k) && SaysArgs(fc, fs[k], req.args)
  }

  lemma LastSayIsLearned(fc: Floats, fs: seq<Field>, i: nat, j: nat, k: nat, req: Request)
    requires AreFields(fc, fs) && LastSay(fc, fs, i, j, k, req)
    ensures Complete(LearnAll(fc, fs, NOTHING)) == Some(req)
  {
    hide IsField, Learn, Name, LearnAll, SaysId, SaysCommand, SaysArgs;
    FieldSays(fc, fs[i]);
    FieldSays(fc, fs[j]);
    FieldSays(fc, fs[k]);
    LastDecides(fc, fs, NOTHING, i);
    LastDecides(fc, fs, NOTHING, j);
    LastDecides(fc, fs, NOTHING, k);
  }

  /** A map-shaped Request with its fields in any order, any duplicates, any
      unknown keys and any header format decodes to the Request its last id,
      command and args fields say: the one the array form of it decodes to. */
  lemma MapShapedAgrees(fc: Floats, header: Octets, fs: seq<Field>, req: Request, i: nat, j: nat, k: nat, t: Octets, u: Octets)
    requires header != [] && IsMapCode(header[0]) && ReadHead(header) == Some((HSized(KMap, |fs|), []))
    requires (forall f | f in fs :: IsWhole(fc, f)) && LastSay(fc, fs, i, j, k, req)
    ensures ParseRequest(fc, header + FieldsBytes(fs) + t) == Some((req, t))
    ensures ParseRequest(fc, EncodeRequest(req) + u) == Some((req, u))
  {
    hide IsField, IsWhole, ParseRequest, LearnAll, ReadHead, LastSay;
    forall f | f in fs ensures IsField(fc, f) { FieldSays(fc, f); }
    ParseMapHeader(fc, header, fs, t);
    LastSayIsLearned(fc, fs, i, j, k, req);
    ParsedRequest(fc, header + FieldsBytes(fs) + t);
    ParseEncodedRequest(fc, req, u);
  }

  lemma ParseMapHeader(fc: Floats, header: Octets, fs: seq<Field>, t: Octets)
    requires header != [] && IsMapCode(header[0]) && ReadHead(header) == Some((HSized(KMap, |fs|), []))
    requires AreFields(fc, fs)
    ensures ParseRequest(fc, header + FieldsBytes(fs) + t) ==
      match Complete(LearnAll(fc, fs, NOTHING)) { case None => None case Some(req) => Some((req, t)) }
  {
    hide IsField, ReadHead;
    Append(header, FieldsBytes(fs), t);
    LocalCode(header, FieldsBytes(fs) + t);
    LocalHead(header, FieldsBytes(fs) + t);
    assert [] + (FieldsBytes(fs) + t) == FieldsBytes(fs) + t;
    ParseAreFields(fc, fs, NOTHING, t);
  }

  /** Without one of the three fields there is no Request. */
  lemma MapShapedMissingField(fc: Floats, header: Octets, fs: seq<Field>, t: Octets)
    requires header != [] && IsMapCode(header[0]) && ReadHead(header) == Some((HSized(KMap, |fs|), []))
    requires AreFields(fc, fs) && (Absent(fs, ID) || Absent(fs, COMMAND) || Absent(fs, ARGS))
    ensures ParseRequest(fc, header + FieldsBytes(fs) + t).None?
  {
    ParseMapHeader(fc, header, fs, t);
    AbsentKeeps(fc, fs, NOTHING);
  }

  /** Conversely, whatever the decoder takes as one field is one. */
  lemma ParsedFieldIsField(fc: Floats, s: Octets, got: Partial) returns (f: Field)
    requires ParseField(fc, s, got).Some?
    ensures IsField(fc, f) && s == f.key + f.payload + ParseField(fc, s, got).value.1
    ensures ParseField(fc, s, got).value.0 == Learn(fc, f, got)
  {
    hide ReadBlob, ParsePayload;
    var (name, payload) := ReadStr(s).value;
    var key, tail := s[..|s| - |payload|], s[|s| - |payload|..];
    assert s == key + tail;
    LocalBlob(KStr, key, tail);
    Whole(ReadStr(key), ReadStr(s), tail);
    var rest := ParseField(fc, s, got).value.1;
    var p, u := payload[..|payload| - |rest|], payload[|payload| - |rest|..];
    assert payload == p + u;
    LocalPayload(fc, name, p, got, u);
    Whole(ParsePayload(fc, name, p, got), ParsePayload(fc, name, payload, got), u);
    f := Field(key, p);
    PayloadLearns(fc, name, p, got);
    Append(key, p, u);
  }

  /** What has been learned before does not influence what a payload is. */
  lemma PayloadLearns(fc: Floats, name: Octets, s: Octets, got: Partial)
    ensures ParsePayload(fc, name, s, got).Some? <==> ParsePayload(fc, name, s, NOTHING).Some?
    ensures ParsePayload(fc, name, s, got).Some? ==>
      ParsePayload(fc, name, s, got).value.1 == ParsePayload(fc, name, s, NOTHING).value.1
  {
  }

  lemma {:induction false} ParsedFieldsAreFields(fc: Floats, s: Octets, n: nat, got: Partial) returns (fs: seq<Field>)
    requires ParseFields(fc, s, n, got).Some?
    ensures |fs| == n && AreFields(fc, fs) && s == FieldsBytes(fs) + ParseFields(fc, s, n, got).value.1
    ensures ParseFields(fc, s, n, got).value.0 == LearnAll(fc, fs, got)
    decreases n
  {
    hide ParseField, IsField, Learn;
    if n == 0 {
      fs := [];
    } else {
      var f := ParsedFieldIsField(fc, s, got);
      var (got', rest) := ParseField(fc, s, got).value;
      var others := ParsedFieldsAreFields(fc, rest, n - 1, got');
      fs := [f] + others;
      assert fs[1..] == others;
      Append(f.key + f.payload, FieldsBytes(others), ParseFields(fc, rest, n - 1, got').value.1);
    }
  }

  ghost predicate IsMapShaped(fc: Floats, s: Octets, header: Octets, fs: seq<Field>, t: Octets) {
    && header != [] && IsMapCode(header[0]) && ReadHead(header) == Some((HSized(KMap, |fs|), []))
    && AreFields(fc, fs)
    && s == header + FieldsBytes(fs) + t
  }

  lemma MapShapedHasFields(fc: Floats, s: Octets) returns (header: Octets, fs: seq<Field>)
    requires ParseMapShaped(fc, s).Some? && IsMapCode(s[0])
    ensures IsMapShaped(fc, s, header, fs, ParseMapShaped(fc, s).value.1)
    ensures Complete(LearnAll(fc, fs, NOTHING)) == Some(ParseMapShaped(fc, s).value.0)
  {
    hide IsField, ReadHead, Learn, ParseFields, Complete;
    var (n, rest) := ReadCount(KMap, s).value;
    fs := ParsedFieldsAreFields(fc, rest, n, NOTHING);
    var tail := s[|s| - |rest|..];
    header := s[..|s| - |rest|];
    assert s == header + tail;
    LocalHead(header, tail);
    Whole(ReadHead(header), ReadHead(s), tail);
    Append(header, FieldsBytes(fs), ParseMapShaped(fc, s).value.1);
  }

  lemma MapShapedIsLearned(fc: Floats, s: Octets, req: Request, t: Octets)
    requires s != [] && IsMapCode(s[0])
    ensures ParseRequest(fc, s) == Some((req, t)) <==>
      exists header, fs :: IsMapShaped(fc, s, header, fs, t) && Complete(LearnAll(fc, fs, NOTHING)) == Some(req)
  {
    hide IsField, ReadHead, Learn, ParseMapShaped, LearnAll, Complete;
    if ParseRequest(fc, s) == Some((req, t)) {
      var header, fs := MapShapedHasFields(fc, s);
    }
    forall header, fs | IsMapShaped(fc, s, header, fs, t) && Complete(LearnAll(fc, fs, NOTHING)) == Some(req)
      ensures ParseRequest(fc, s) == Some((req, t))
    {
      ParseMapHeader(fc, header, fs, t);
    }
  }

  lemma {:induction false} LastOf(fs: seq<Field>, name: Octets) returns (i: nat)
    requires !Absent(fs, name)
    ensures IsLast(fs, name, i)
  {
    hide Name;
    var n := |fs| - 1;
    if Name(fs[n]) == name {
      i := n;
    } else {
      assert fs == fs[..n] + [fs[n]];
      i := LastOf(fs[..n], name);
    }
  }

  lemma LearnedIsSaid(fc: Floats, fs: seq<Field>, req: Request) returns (i: nat, j: nat, k: nat)
    requires AreFields(fc, fs) && Complete(LearnAll(fc, fs, NOTHING)) == Some(req)
    ensures LastSay(fc, fs, i, j, k, req)
  {
    hide IsField, Learn, Name, LearnAll, SaysId, SaysCommand, SaysArgs;
    AbsentKeeps(fc, fs, NOTHING);
    i := LastOf(fs, ID);
    j := LastOf(fs, COMMAND);
    k := LastOf(fs, ARGS);
    LastDecides(fc, fs, NOTHING, i);
    LastDecides(fc, fs, NOTHING, j);
    LastDecides(fc, fs, NOTHING, k);
    FieldSays(fc, fs[i]);
    FieldSays(fc, fs[j]);
    FieldSays(fc, fs[k]);
  }

  /** A map header and whole fields, the last of which say req. */
  ghost predicate Describes(fc: Floats, s: Octets, header: Octets, fs: seq<Field>, i: nat, j: nat, k: nat, req: Request, t: Octets) {
    && header != [] && IsMapCode(header[0]) && ReadHead(header) == Some((HSized(KMap, |fs|), []))
    && (forall f | f in fs :: IsWhole(fc, f)) && LastSay(fc, fs, i, j, k, req)
    && s == header + FieldsBytes(fs) + t
  }

  /** The map-shaped grammar is exactly a map header and that many whole fields, among
      them an id, a command and an args, and the last of each say the Request. */
  lemma MapShapedIff(fc: Floats, s: Octets, req: Request, t: Octets)
    requires s != [] && IsMapCode(s[0])
    ensures ParseRequest(fc, s) == Some((req, t))
      <==> exists header, fs, i: nat, j: nat, k: nat :: Describes(fc, s, header, fs, i, j, k, req, t)
  {
    hide IsField, IsWhole, ReadHead, LearnAll, Complete, ParseRequest, LastSay;
    MapShapedIsLearned(fc, s, req, t);
    if ParseRequest(fc, s) == Some((req, t)) {
      var header, fs :| IsMapShaped(fc, s, header, fs, t) && Complete(LearnAll(fc, fs, NOTHING)) == Some(req);
      var i, j, k := LearnedIsSaid(fc, fs, req);
      forall f | f in fs ensures IsWhole(fc, f) { FieldSays(fc, f); }
      assert Describes(fc, s, header, fs, i, j, k, req, t);
    }
    forall header, fs, i: nat, j: nat, k: nat | Describes(fc, s, header, fs, i, j, k, req, t)
      ensures ParseRequest(fc, s) == Some((req, t))
    {
      MapShapedAgrees(fc, header, fs, req, i, j, k, t, []);
    }
  }

  // --- tolerated payloads ---

  /** One byte after the other, each as an integer. */
  function Numbers(d: Octets): Octets {
    if d == [] then [] else WriteUint(d[0]) + Numbers(d[1..])
  }

  lemma {:induction false} ParseNumbers(d: Octets, t: Octets)
    ensures ParseByteItems(Numbers(d) + t, |d|) == Some((d, t))
  {
    hide WriteUint, ReadHead;
    if d == [] {
      assert Numbers(d) + t == t;
    } else {
      Append(WriteUint(d[0]), Numbers(d[1..]), t);
      ReadWriteUint(d[0], Numbers(d[1..]) + t);
      ParseNumbers(d[1..], t);
      assert d == [d[0]] + d[1..];
    }
  }

  /** Bytes given as an array of integers are those bytes. */
  lemma NumbersAreBytes(fc: Floats, d: Octets, t: Octets)
    requires |d| < 0x1_0000_0000
    ensures ParseValue(fc, EncodeTag(BYTES) + (WriteCount(KArray, |d|) + (Numbers(d) + t))) == Some((Bytes(d), t))
  {
    hide EncodeTag, ReadHead, ParseByteItems, Numbers, ParseValue, WriteCount;
    ParseTag(fc, BYTES, WriteCount(KArray, |d|) + (Numbers(d) + t));
    ReadWriteCount(KArray, |d|, Numbers(d) + t);
    ParseNumbers(d, t);
    ArrayHeaderCode(|d|);
  }

  /** A Float given as an integer is that number, and given as a 32-bit float that float. */
  lemma NumbersAreFloats(fc: Floats, i: int64, a: byte, b: byte, c: byte, d: byte, t: Octets)
    ensures ParseValue(fc, EncodeTag(FLOAT) + (WriteInt(i) + t)) == Some((Float(fc.ofInt(i)), t))
    ensures 0x100_0000 * a + 0x1_0000 * b + 0x100 * c + d < 0x1_0000_0000
    ensures ParseValue(fc, EncodeTag(FLOAT) + ([0xca, a, b, c, d] + t))
      == Some((Float(fc.ofFloat32(0x100_0000 * a + 0x1_0000 * b + 0x100 * c + d)), t))
  {
    hide EncodeTag, ReadHead, ParseValue, FromBE;
    ParseTag(fc, FLOAT, WriteInt(i) + t);
    ReadWriteInt(i, t);
    WrittenIntCode(i, t);
    hide WriteInt;
    ParseTag(fc, FLOAT, [0xca, a, b, c, d] + t);
    FormatsOfFour(a, b, c, d, 0x100_0000 * a + 0x1_0000 * b + 0x100 * c + d, t);
  }

  lemma WrittenIntCode(i: int64, t: Octets)
    ensures WriteInt(i) + t != [] && IsIntCode((WriteInt(i) + t)[0])
  {
  }

  // --- what the encoder writes is never one of these ---

  /** An array-shaped body is all the encoder produces, so a map-shaped one is never reproduced. */
  lemma MapShapedIsNeverReproduced(fc: Floats, s: Octets, req: Request)
    requires s != [] && IsMapCode(s[0]) && DecodeRequestBody(fc, s) == Some(req)
    ensures IsArrayCode(EncodeRequest(req)[0]) && EncodeRequest(req) != s
  {
    assert EncodeRequest(req)[0] == 0x93;
  }

  predicate IsText(o: Obj, text: Octets) { IsStringCode(o.code) && o.blob == text }

  /** Somewhere in the object a Bytes tag has an array behind it, or a Float tag an integer. */
  predicate Tolerated(o: Obj) {
    || (|o.kids| == 2 && IsMapCode(o.code)
        && (|| (IsText(o.kids[0], BYTES) && IsArrayCode(o.kids[1].code))
            || (IsText(o.kids[0], FLOAT) && IsIntCode(o.kids[1].code))))
    || exists k | k in o.kids :: Tolerated(k)
  }

  /** The object made of one complete head, a byte run and nested objects. */
  function Headed(head: Octets, blob: Octets, kids: seq<Obj>): Obj
    requires head != []
  {
    Obj(head[0], FromBE(head[1..]), blob, kids)
  }

  lemma SerializeHeaded(head: Octets, blob: Octets, kids: seq<Obj>)
    requires ReadHead(head).Some? && ReadHead(head).value.1 == []
    requires |blob| == BlobLength(ReadHead(head).value.0) && |kids| == KidCount(ReadHead(head).value.0)
    requires forall k | k in kids :: WellFormed(k)
    ensures WellFormed(Headed(head, blob, kids))
    ensures Serialize(Headed(head, blob, kids)) == head + blob + SerializeAll(kids)
  {
    hide WellFormed, Serialize, SerializeAll, BlobLength, KidCount, HeadOf, FromBE;
    var n := HeadIsCoded(head);
    HeadNumber(head, n);
    Assembled(head[0], n, blob, kids, []);
    Nothing(Serialize(Headed(head, blob, kids)));
    Nothing(SerializeAll(kids));
    Append(head, blob, SerializeAll(kids));
  }

  lemma Nothing(s: Octets)
    ensures s + [] == s
  {
  }

  /** The field of a bare head holds its number. */
  lemma HeadNumber(head: Octets, n: nat)
    requires head != [] && n < Pow256(FieldWidth(head[0])) && head == Coded(head[0], n) + []
    ensures FromBE(head[1..]) == n && head == Coded(head[0], n)
  {
    hide LayoutOf, FieldWidth, Pow256, FromBE;
    assert head[1..] == BE(n, FieldWidth(head[0]));
    FromBEOfBE(n, FieldWidth(head[0]));
  }

  /** The canonical encoding of a value, as an object. */
  function ObjectOf(v: Value): Obj
    decreases v
  {
    match v
    case Null => Text(NULL)
    case Bool(b) => Tagged(BOOL, Headed(WriteBool(b), [], []))
    case Int(i) => Tagged(INT, Headed(WriteInt(i), [], []))
    case Float(bits) => Tagged(FLOAT, Headed(WriteFloat64(bits), [], []))
    case Bytes(d) => Tagged(BYTES, Headed(WriteCount(KBin, |d|), d, []))
    case Str(s) => Tagged(STR, Text(s))
    case Array(vs) => Tagged(ARRAY, Headed(WriteCount(KArray, |vs|), [], ObjectsOf(vs)))
    case Map(es) => Tagged(MAP, Headed(WriteCount(KArray, |es|), [], ObjectsOfEntries(es)))
  }

  function ObjectsOf(vs: seq<Value>): (os: seq<Obj>)
    ensures |os| == |vs|
    decreases vs
  {
    if vs == [] then [] else [ObjectOf(vs[0])] + ObjectsOf(vs[1..])
  }

  function ObjectOfEntry(e: Entry): Obj
    decreases e
  {
    Headed(WriteCount(KArray, 2), [], [ObjectOf(e.key), ObjectOf(e.val)])
  }

  function ObjectsOfEntries(es: seq<Entry>): (os: seq<Obj>)
    ensures |os| == |es|
    decreases es
  {
    if es == [] then [] else [ObjectOfEntry(es[0])] + ObjectsOfEntries(es[1..])
  }

  function Text(s: Octets): Obj { Headed(WriteCount(KStr, |s|), s, []) }

  function Tagged(name: Octets, payload: Obj): Obj { Headed(WriteCount(KMap, 1), [], [Text(name), payload]) }

  /** o is a well-formed object free of tolerated forms that serializes to s. */
  ghost predicate Represents(o: Obj, s: Octets) {
    WellFormed(o) && Serialize(o) == s && !Tolerated(o)
  }

  ghost predicate AllRepresent(os: seq<Obj>, s: Octets) {
    SerializeAll(os) == s && forall k | k in os :: WellFormed(k) && !Tolerated(k)
  }

  lemma ScalarRepresents(head: Octets)
    requires ReadHead(head).Some? && ReadHead(head).value.1 == []
    requires BlobLength(ReadHead(head).value.0) == 0 && KidCount(ReadHead(head).value.0) == 0
    ensures Represents(Headed(head, [], []), head)
  {
    SerializeHeaded(head, [], []);
    assert head + [] + SerializeAll([]) == head;
  }

  lemma BlobRepresents(k: Kind, d: Octets)
    requires (k == KStr || k == KBin) && |d| < 0x1_0000_0000
    ensures Represents(Headed(WriteCount(k, |d|), d, []), WriteCount(k, |d|) + d)
  {
    var head := WriteCount(k, |d|);
    ReadWriteCount(k, |d|, []);
    assert head + [] == head;
    SerializeHeaded(head, d, []);
    assert head + d + SerializeAll([]) == head + d;
  }

  lemma ArrayRepresents(os: seq<Obj>, s: Octets)
    requires |os| < 0x1_0000_0000 && AllRepresent(os, s)
    ensures Represents(Headed(WriteCount(KArray, |os|), [], os), WriteCount(KArray, |os|) + s)
  {
    var head := WriteCount(KArray, |os|);
    ReadWriteCount(KArray, |os|, []);
    assert head + [] == head;
    SerializeHeaded(head, [], os);
    ArrayHeaderCode(|os|);
  }

  lemma ArrayHeaderCode(n: nat)
    ensures var c := WriteCount(KArray, n)[0]; IsArrayCode(c) && !IsMapCode(c)
  {
  }

  lemma SerializePair(a: Obj, b: Obj)
    ensures SerializeAll([a, b]) == Serialize(a) + Serialize(b)
  {
    hide Serialize;
    assert [a, b][1..] == [b] && [b][1..] == [];
    assert SerializeAll([b]) == Serialize(b) + [];
  }

  lemma TaggedRepresents(name: Octets, payload: Obj, s: Octets)
    requires |name| < 0x20 && Represents(payload, s)
    requires name == BYTES ==> !IsArrayCode(payload.code)
    requires name == FLOAT ==> !IsIntCode(payload.code)
    ensures Represents(Tagged(name, payload), EncodeTag(name) + s)
  {
    hide Serialize;
    var head := WriteCount(KMap, 1);
    ReadWriteCount(KMap, 1, []);
    assert head + [] == head;
    BlobRepresents(KStr, name);
    var kids := [Text(name), payload];
    SerializeHeaded(head, [], kids);
    SerializePair(Text(name), payload);
    assert head + [] + (WriteStr(name) + s) == EncodeTag(name) + s;
  }

  lemma ScalarObject(v: Value)
    requires !v.Array? && !v.Map? && Fits(v)
    ensures Represents(ObjectOf(v), EncodeValue(v))
  {
    hide Represents, ReadHead, Tagged, Headed;
    match v {
      case Null => BlobRepresents(KStr, NULL);
      case Bool(b) =>
        ReadWriteBool(b, []);
        WrittenScalar(BOOL, WriteBool(b));
      case Int(i) =>
        ReadWriteInt(i, []);
        WrittenScalar(INT, WriteInt(i));
      case Float(bits) =>
        ReadWriteFloat64(bits, []);
        WrittenScalar(FLOAT, WriteFloat64(bits));
      case Bytes(d) =>
        BlobRepresents(KBin, d);
        BinHeaderCode(d);
        TaggedRepresents(BYTES, Headed(WriteCount(KBin, |d|), d, []), WriteBin(d));
      case Str(s) =>
        BlobRepresents(KStr, s);
        TaggedRepresents(STR, Text(s), WriteStr(s));
    }
  }

  lemma BinHeaderCode(d: Octets)
    ensures !IsArrayCode(Headed(WriteCount(KBin, |d|), d, []).code)
  {
  }

  lemma WrittenScalar(name: Octets, head: Octets)
    requires |name| < 0x20 && name != BYTES && (name == FLOAT ==> head != [] && head[0] == 0xcb)
    requires ReadHead(head + []).Some? && ReadHead(head + []).value.1 == []
    requires !ReadHead(head + []).value.0.HSized?
    ensures Represents(Tagged(name, Headed(head, [], [])), EncodeTag(name) + head)
  {
    assert head + [] == head;
    ScalarRepresents(head);
    TaggedRepresents(name, Headed(head, [], []), head);
  }

  lemma {:induction false} ObjectOfValue(v: Value)
    requires Fits(v)
    ensures Represents(ObjectOf(v), EncodeValue(v))
    decreases v
  {
    hide Represents, Tagged, Headed;
    match v {
      case Array(vs) =>
        ObjectsOfValues(vs);
        ArrayRepresents(ObjectsOf(vs), EncodeAll(vs));
        TaggedRepresents(ARRAY, Headed(WriteCount(KArray, |vs|), [], ObjectsOf(vs)), EncodeArgs(vs));
      case Map(es) =>
        ObjectsOfPairs(es);
        ArrayRepresents(ObjectsOfEntries(es), EncodeEntries(es));
        TaggedRepresents(MAP, Headed(WriteCount(KArray, |es|), [], ObjectsOfEntries(es)),
                         WriteCount(KArray, |es|) + EncodeEntries(es));
      case _ => ScalarObject(v);
    }
  }

  lemma {:induction false} ObjectsOfValues(vs: seq<Value>)
    requires forall v | v in vs :: Fits(v)
    ensures AllRepresent(ObjectsOf(vs), EncodeAll(vs))
    decreases vs
  {
    hide ObjectOf, EncodeValue, WellFormed, Tolerated, Serialize;
    if vs != [] {
      ObjectOfValue(vs[0]);
      ObjectsOfValues(vs[1..]);
      assert ObjectsOf(vs)[1..] == ObjectsOf(vs[1..]);
    }
  }

  lemma {:induction false} ObjectOfPair(e: Entry)
    requires Fits(e.key) && Fits(e.val)
    ensures Represents(ObjectOfEntry(e), EncodeEntry(e))
    decreases e
  {
    hide ObjectOf, EncodeValue, WellFormed, Tolerated, Serialize;
    ObjectOfValue(e.key);
    ObjectOfValue(e.val);
    var kids := [ObjectOf(e.key), ObjectOf(e.val)];
    SerializePair(ObjectOf(e.key), ObjectOf(e.val));
    ArrayRepresents(kids, EncodeValue(e.key) + EncodeValue(e.val));
  }

  lemma {:induction false} ObjectsOfPairs(es: seq<Entry>)
    requires forall e | e in es :: Fits(e.key) && Fits(e.val)
    ensures AllRepresent(ObjectsOfEntries(es), EncodeEntries(es))
    decreases es
  {
    hide ObjectOfEntry, EncodeEntry, WellFormed, Tolerated, Serialize;
    if es != [] {
      ObjectOfPair(es[0]);
      ObjectsOfPairs(es[1..]);
      assert ObjectsOfEntries(es)[1..] == ObjectsOfEntries(es[1..]);
    }
  }

  /** At no depth does an encoding hold an integer-array Bytes payload or an
      integer Float payload: read the bytes as an object in any way, it has none. */
  lemma ToleratedFormsAreNeverWritten(v: Value, o: Obj)
    requires Fits(v) && WellFormed(o) && Serialize(o) == EncodeValue(v)
    ensures !Tolerated(o)
  {
    ObjectOfValue(v);
    OneReading(o, ObjectOf(v), [], []);
  }

  // --- the same for whole bodies ---

  function IdObject(id: u32): Obj { Headed(WriteUint(id), [], []) }

  function ArgsObject(vs: seq<Value>): Obj { Headed(WriteCount(KArray, |vs|), [], ObjectsOf(vs)) }

  function ResultObject(r: Response): Obj {
    match r
    case ResponseOk(_, v) => Tagged(OK, ObjectOf(v))
    case ResponseErr(_, m) => Tagged(ERR, Text(m))
  }

  function RequestObject(r: Request): Obj {
    Headed(WriteCount(KArray, 3), [], [IdObject(r.id), Text(r.command), ArgsObject(r.args)])
  }

  function ResponseObject(r: Response): Obj {
    Headed(WriteCount(KArray, 2), [], [IdObject(r.id), ResultObject(r)])
  }

  lemma IdRepresents(id: u32)
    ensures Represents(IdObject(id), WriteUint(id))
  {
    hide Represents, ReadHead, Headed;
    ReadWriteUint(id, []);
    assert WriteUint(id) + [] == WriteUint(id);
    ScalarRepresents(WriteUint(id));
  }

  lemma SerializeTriple(a: Obj, b: Obj, c: Obj)
    ensures SerializeAll([a, b, c]) == Serialize(a) + (Serialize(b) + Serialize(c))
  {
    hide Serialize;
    assert [a, b, c][1..] == [b, c];
    SerializePair(b, c);
  }

  lemma RequestObjectRepresents(r: Request)
    requires RequestFits(r)
    ensures Represents(RequestObject(r), EncodeRequest(r))
  {
    IdRepresents(r.id);
    BlobRepresents(KStr, r.command);
    ObjectsOfValues(r.args);
    ArrayRepresents(ObjectsOf(r.args), EncodeAll(r.args));
    var a, b, c := IdObject(r.id), Text(r.command), ArgsObject(r.args);
    hide WellFormed, Tolerated, Serialize, SerializeAll, Headed, EncodeAll, WriteUint, WriteCount;
    SerializeTriple(a, b, c);
    ArrayRepresents([a, b, c], WriteUint(r.id) + (WriteStr(r.command) + EncodeArgs(r.args)));
  }

  lemma ResultRepresents(r: Response)
    requires ResponseFits(r)
    ensures Represents(ResultObject(r), EncodeResult(r))
  {
    hide Represents, ObjectOf, EncodeValue, Tagged, Headed;
    match r {
      case ResponseOk(_, v) =>
        ObjectOfValue(v);
        TaggedRepresents(OK, ObjectOf(v), EncodeValue(v));
      case ResponseErr(_, m) =>
        BlobRepresents(KStr, m);
        TaggedRepresents(ERR, Text(m), WriteStr(m));
    }
  }

  lemma ResponseObjectRepresents(r: Response)
    requires ResponseFits(r)
    ensures Represents(ResponseObject(r), EncodeResponse(r))
  {
    IdRepresents(r.id);
    ResultRepresents(r);
    var a, b := IdObject(r.id), ResultObject(r);
    hide WellFormed, Tolerated, Serialize, SerializeAll, Headed, IdObject, ResultObject, EncodeResult, WriteUint, WriteCount;
    SerializePair(a, b);
    ArrayRepresents([a, b], WriteUint(r.id) + EncodeResult(r));
  }

  /** A Request body with a tolerated form anywhere in it is decoded, but what the
      encoder makes of the result is never that body again. */
  lemma ToleratedRequestIsNeverReproduced(fc: Floats, o: Obj, t: Octets)
    requires WellFormed(o) && Tolerated(o) && DecodeRequestBody(fc, Serialize(o) + t).Some?
    ensures EncodeRequest(DecodeRequestBody(fc, Serialize(o) + t).value) != Serialize(o) + t
  {
    hide WellFormed, Tolerated, Serialize, ParseRequest, EncodeRequest, RequestObject;
    var r := DecodeRequestBody(fc, Serialize(o) + t).value;
    ParsedRequest(fc, Serialize(o) + t);
    RequestObjectRepresents(r);
    if EncodeRequest(r) == Serialize(o) + t {
      Nothing(Serialize(RequestObject(r)));
      OneReading(o, RequestObject(r), t, []);
    }
  }

  lemma ToleratedResponseIsNeverReproduced(fc: Floats, o: Obj, t: Octets)
    requires WellFormed(o) && Tolerated(o) && DecodeResponseBody(fc, Serialize(o) + t).Some?
    ensures EncodeResponse(DecodeResponseBody(fc, Serialize(o) + t).value) != Serialize(o) + t
  {
    hide WellFormed, Tolerated, Serialize, ParseResponse, EncodeResponse, ResponseObject;
    var r := DecodeResponseBody(fc, Serialize(o) + t).value;
    ParsedResponse(fc, Serialize(o) + t);
    ResponseObjectRepresents(r);
    if EncodeResponse(r) == Serialize(o) + t {
      Nothing(Serialize(ResponseObject(r)));
      OneReading(o, ResponseObject(r), t, []);
    }
  }
}
