/**
 What a body means, read off the MessagePack object it is: a reference for the
 decoder that knows nothing of cursors. An object is taken at its face value,
 whatever format its sender chose, and the streaming decoder accepts exactly the
 objects that mean something here, with that meaning.
 */
module CodecMeaning {
  import opened Wrappers
  import opened MsgPack
  import opened MsgPackObject
  import opened Values
  import opened Codec

  // --- objects at their face value ---

  function HeadAt(o: Obj): Head { if LayoutOf(o.code) == Unused then HNil else HeadOf(o.code, o.num) }

  function TextOf(o: Obj): Option<Octets> {
    var h := HeadAt(o);
    if h.HSized? && h.kind == KStr then Some(o.blob) else None
  }

  function BinOf(o: Obj): Option<Octets> {
    var h := HeadAt(o);
    if h.HSized? && h.kind == KBin then Some(o.blob) else None
  }

  /** The items of an array. */
  function ItemsOf(o: Obj): Option<seq<Obj>> {
    var h := HeadAt(o);
    if h.HSized? && h.kind == KArray then Some(o.kids) else None
  }

  /** The keys and values of a map, alternating. */
  function FieldsOf(o: Obj): Option<seq<Obj>> {
    var h := HeadAt(o);
    if h.HSized? && h.kind == KMap then Some(o.kids) else None
  }

  function IntegerOf(o: Obj): Option<int> { if HeadAt(o).HInt? then Some(HeadAt(o).n) else None }

  // --- meaning ---

  /** A bare "Null", or a map of one tag and its payload. */
  function ValueOf(fc: Floats, o: Obj): Option<Value>
    decreases o
  {
    if TextOf(o) == Some(NULL) then Some(Null)
    else if FieldsOf(o).Some? && |o.kids| == 2 && TextOf(o.kids[0]).Some? then
      PayloadOf(fc, TextOf(o.kids[0]).value, o.kids[1])
    else None
  }

  function PayloadOf(fc: Floats, tag: Octets, o: Obj): Option<Value>
    decreases o
  {
    var h := HeadAt(o);
    if tag == BOOL then if h.HBool? then Some(Bool(h.b)) else None
    else if tag == INT then
      if h.HInt? && -0x8000_0000_0000_0000 <= h.n < 0x8000_0000_0000_0000 then Some(Int(h.n)) else None
    else if tag == FLOAT then FloatOf(fc, h)
    else if tag == STR then if TextOf(o).Some? then Some(Str(o.blob)) else None
    else if tag == BYTES then
      if BinOf(o).Some? then Some(Bytes(o.blob))
      else if ItemsOf(o).Some? && BytesOf(o.kids).Some? then Some(Bytes(BytesOf(o.kids).value))
      else None
    else if tag == ARRAY then
      if ItemsOf(o).Some? && ValuesOf(fc, o.kids).Some? then Some(Array(ValuesOf(fc, o.kids).value)) else None
    else if tag == MAP then
      if ItemsOf(o).Some? && EntriesOf(fc, o.kids).Some? then Some(Map(EntriesOf(fc, o.kids).value)) else None
    else None
  }

  /** A double as it is, a float or an int64 converted. */
  function FloatOf(fc: Floats, h: Head): Option<Value> {
    match h
    case HInt(n) => if -0x8000_0000_0000_0000 <= n < 0x8000_0000_0000_0000 then Some(Float(fc.ofInt(n))) else None
    case HFloat32(b) => if b < 0x1_0000_0000 then Some(Float(fc.ofFloat32(b))) else None
    case HFloat64(b) => if b < 0x1_0000_0000_0000_0000 then Some(Float(b)) else None
    case _ => None
  }

  /** Integers in byte range, of any integer format. */
  function BytesOf(os: seq<Obj>): Option<Octets> {
    if os == [] then Some([])
    else
      var n := IntegerOf(os[0]);
      var others := BytesOf(os[1..]);
      if n.Some? && 0 <= n.value < 0x100 && others.Some? then Some([n.value] + others.value) else None
  }

  function ValuesOf(fc: Floats, os: seq<Obj>): Option<seq<Value>>
    decreases os
  {
    if os == [] then Some([])
    else
      var v, vs := ValueOf(fc, os[0]), ValuesOf(fc, os[1..]);
      if v.Some? && vs.Some? then Some([v.value] + vs.value) else None
  }

  /** An array of a key and a value. */
  function EntryOf(fc: Floats, o: Obj): Option<Entry>
    decreases o
  {
    if ItemsOf(o).Some? && |o.kids| == 2 then
      var key, val := ValueOf(fc, o.kids[0]), ValueOf(fc, o.kids[1]);
      if key.Some? && val.Some? then Some(Entry(key.value, val.value)) else None
    else None
  }

  function EntriesOf(fc: Floats, os: seq<Obj>): Option<seq<Entry>>
    decreases os
  {
    if os == [] then Some([])
    else
      var e, es := EntryOf(fc, os[0]), EntriesOf(fc, os[1..]);
      if e.Some? && es.Some? then Some([e.value] + es.value) else None
  }

  function IdAt(o: Obj): Option<u32> {
    var n := IntegerOf(o);
    if n.Some? && 0 <= n.value <= 0xFFFF_FFFF then Some(n.value) else None
  }

  function ArgsAt(fc: Floats, o: Obj): Option<seq<Value>> {
    if ItemsOf(o).Some? then ValuesOf(fc, o.kids) else None
  }

  /** What one field of a map-shaped Request adds. */
  function Gained(fc: Floats, name: Octets, o: Obj, got: Partial): Option<Partial> {
    if name == ID then if IdAt(o).Some? then Some(got.(id := IdAt(o))) else None
    else if name == COMMAND then if TextOf(o).Some? then Some(got.(command := TextOf(o))) else None
    else if name == ARGS then if ArgsAt(fc, o).Some? then Some(got.(args := ArgsAt(fc, o))) else None
    else Some(got)
  }

  /** Keys and values of a map-shaped Request in order: each key is a string, a later
      field replaces an earlier one of its name, and an unknown one may be anything. */
  function Gathered(fc: Floats, kids: seq<Obj>, got: Partial): Option<Partial>
    decreases |kids|
  {
    if |kids| < 2 then Some(got)
    else if TextOf(kids[0]).None? then None
    else
      var next := Gained(fc, TextOf(kids[0]).value, kids[1], got);
      if next.None? then None else Gathered(fc, kids[2..], next.value)
  }

  /** [id, command, args], or a map with these three fields. */
  function RequestOf(fc: Floats, o: Obj): Option<Request> {
    if ItemsOf(o).Some? && |o.kids| == 3 then
      var id, command, args := IdAt(o.kids[0]), TextOf(o.kids[1]), ArgsAt(fc, o.kids[2]);
      if id.Some? && command.Some? && args.Some? then Some(Request(id.value, command.value, args.value)) else None
    else if FieldsOf(o).Some? then
      var got := Gathered(fc, o.kids, NOTHING);
      if got.Some? && got.value.id.Some? && got.value.command.Some? && got.value.args.Some?
      then Some(Request(got.value.id.value, got.value.command.value, got.value.args.value)) else None
    else None
  }

  /** [id, {"Ok": value}] or [id, {"Err": text}]. */
  function ResponseOf(fc: Floats, o: Obj): Option<Response> {
    if ItemsOf(o).Some? && |o.kids| == 2 && IdAt(o.kids[0]).Some? then ResultOf(fc, IdAt(o.kids[0]).value, o.kids[1]) else None
  }

  function ResultOf(fc: Floats, id: u32, o: Obj): Option<Response> {
    if FieldsOf(o).Some? && |o.kids| == 2 && TextOf(o.kids[0]).Some? then ArmOf(fc, id, TextOf(o.kids[0]).value, o.kids[1])
    else None
  }

  function ArmOf(fc: Floats, id: u32, arm: Octets, o: Obj): Option<Response> {
    if arm == OK then if ValueOf(fc, o).Some? then Some(ResponseOk(id, ValueOf(fc, o).value)) else None
    else if arm == ERR then if TextOf(o).Some? then Some(ResponseErr(id, o.blob)) else None
    else None
  }

  // --- the primitives read an object at its face value ---

  /** A parse of one object leaves what stands behind it. */
  function Leaving<T>(x: Option<T>, t: Octets): Option<(T, Octets)> {
    match x case None => None case Some(v) => Some((v, t))
  }

  lemma FaceValue(o: Obj, t: Octets)
    requires WellFormed(o)
    ensures ReadHead(Serialize(o) + t) == Some((HeadAt(o), o.blob + (SerializeAll(o.kids) + t)))
    ensures Serialize(o) + t != [] && (Serialize(o) + t)[0] == o.code
    ensures |o.blob| == BlobLength(HeadAt(o)) && |o.kids| == KidCount(HeadAt(o))
  {
    hide LayoutOf, SerializeAll, Coded, FieldWidth, HeadOf, BlobLength, KidCount, Pow256, ReadHead, Serialize;
    Assembled(o.code, o.num, o.blob, o.kids, t);
    ReadCoded(o.code, o.num, o.blob + (SerializeAll(o.kids) + t));
    CodeIsFirst(o.code, o.num, o.blob + (SerializeAll(o.kids) + t));
  }

  lemma NoKids(o: Obj, t: Octets)
    requires o.kids == []
    ensures o.blob + (SerializeAll(o.kids) + t) == o.blob + t
    ensures o.blob == [] ==> o.blob + (SerializeAll(o.kids) + t) == t
    ensures (o.blob + t)[..|o.blob|] == o.blob && (o.blob + t)[|o.blob|..] == t
  {
    assert SerializeAll(o.kids) + t == t;
  }

  lemma ReadsBlob(k: Kind, o: Obj, t: Octets)
    requires WellFormed(o) && (k == KStr || k == KBin)
    ensures ReadBlob(k, Serialize(o) + t)
      == if HeadAt(o).HSized? && HeadAt(o).kind == k then Some((o.blob, t)) else None
  {
    FaceValue(o, t);
    BlobSizes(HeadAt(o), k);
    hide SerializeAll, Serialize, WellFormed, ReadHead, HeadAt, BlobLength, KidCount;
    if HeadAt(o).HSized? && HeadAt(o).kind == k { NoKids(o, t); }
  }

  lemma BlobSizes(h: Head, k: Kind)
    requires k == KStr || k == KBin
    ensures h.HSized? && h.kind == k ==> BlobLength(h) == h.count && KidCount(h) == 0
  {
  }

  lemma ReadsText(o: Obj, t: Octets)
    requires WellFormed(o)
    ensures ReadStr(Serialize(o) + t) == Leaving(TextOf(o), t)
    ensures ReadBin(Serialize(o) + t) == Leaving(BinOf(o), t)
  {
    hide Serialize, WellFormed, HeadAt, ReadBlob;
    ReadsBlob(KStr, o, t);
    ReadsBlob(KBin, o, t);
  }

  lemma ReadsScalar(o: Obj, t: Octets)
    requires WellFormed(o)
    ensures var h := HeadAt(o);
      && ReadBool(Serialize(o) + t) == (if h.HBool? then Some((h.b, t)) else None)
      && ReadInt64(Serialize(o) + t)
           == (if h.HInt? && -0x8000_0000_0000_0000 <= h.n < 0x8000_0000_0000_0000 then Some((h.n, t)) else None)
      && ReadUint64(Serialize(o) + t)
           == (if h.HInt? && 0 <= h.n < 0x1_0000_0000_0000_0000 then Some((h.n, t)) else None)
      && (h.HFloat32? || h.HFloat64? ==> ReadHead(Serialize(o) + t) == Some((h, t)))
  {
    hide LayoutOf, SerializeAll, Serialize, WellFormed, ReadHead, HeadAt;
    FaceValue(o, t);
    if o.kids == [] && o.blob == [] { NoKids(o, t); }
  }

  lemma ReadsCount(o: Obj, t: Octets)
    requires WellFormed(o)
    ensures ReadCount(KArray, Serialize(o) + t) == Leaving(if ItemsOf(o).Some? then Some(|o.kids|) else None, SerializeAll(o.kids) + t)
    ensures FieldsOf(o).Some? ==> |o.kids| % 2 == 0
    ensures ReadCount(KMap, Serialize(o) + t) == Leaving(if FieldsOf(o).Some? then Some(|o.kids| / 2) else None, SerializeAll(o.kids) + t)
  {
    hide LayoutOf, SerializeAll, Serialize, WellFormed, ReadHead, HeadAt;
    FaceValue(o, t);
    if o.blob == [] { assert o.blob + (SerializeAll(o.kids) + t) == SerializeAll(o.kids) + t; }
  }

  predicate HasKind(l: Layout, k: Kind) {
    (l.Immediate? && l.head.HSized? && l.head.kind == k) || (l.Counted? && l.kind == k)
  }

  /** The code tests of the decoder in terms of the format table. */
  lemma CodeKinds(c: byte)
    ensures IsStringCode(c) <==> HasKind(LayoutOf(c), KStr)
    ensures IsArrayCode(c) <==> HasKind(LayoutOf(c), KArray)
    ensures IsMapCode(c) <==> HasKind(LayoutOf(c), KMap)
    ensures IsIntCode(c) <==> (LayoutOf(c).Immediate? && LayoutOf(c).head.HInt?) || LayoutOf(c).Unsigned? || LayoutOf(c).Signed?
    ensures LayoutOf(c).Immediate? ==> !LayoutOf(c).head.HFloat32? && !LayoutOf(c).head.HFloat64?
    ensures LayoutOf(c).Floating? ==> FieldWidth(c) == LayoutOf(c).w && (FieldWidth(c) == 4 || FieldWidth(c) == 8)
  {
  }

  /** The code tests of the decoder ask for the sort of object. */
  lemma CodesTell(o: Obj)
    requires WellFormed(o)
    ensures IsStringCode(o.code) <==> TextOf(o).Some?
    ensures IsArrayCode(o.code) <==> ItemsOf(o).Some?
    ensures IsMapCode(o.code) <==> FieldsOf(o).Some?
    ensures IsIntCode(o.code) <==> HeadAt(o).HInt?
    ensures HeadAt(o).HFloat32? ==> HeadAt(o).bits < 0x1_0000_0000
    ensures HeadAt(o).HFloat64? ==> HeadAt(o).bits64 < 0x1_0000_0000_0000_0000
  {
    CodeKinds(o.code);
    Pow256Values();
    hide LayoutOf, FieldWidth, Pow256, BlobLength, KidCount, IsStringCode, IsArrayCode, IsMapCode, IsIntCode;
  }

  // --- the decoder on the bytes of an object ---

  lemma FirstOf(os: seq<Obj>, t: Octets)
    requires os != []
    ensures SerializeAll(os) + t == Serialize(os[0]) + (SerializeAll(os[1..]) + t)
  {
    hide Serialize;
    Append(Serialize(os[0]), SerializeAll(os[1..]), t);
  }

  lemma TwoOf(os: seq<Obj>, t: Octets)
    requires |os| == 2
    ensures SerializeAll(os) + t == Serialize(os[0]) + (Serialize(os[1]) + t)
  {
    hide Serialize;
    FirstOf(os, t);
    FirstOf(os[1..], t);
    assert os[1..][1..] == [] && SerializeAll([]) + t == t;
  }

  lemma KidsAreWellFormed(o: Obj)
    requires WellFormed(o)
    ensures forall k | k in o.kids :: WellFormed(k)
  {
  }

  lemma {:induction false} BytesMeaning(os: seq<Obj>, t: Octets)
    requires forall k | k in os :: WellFormed(k)
    ensures ParseByteItems(SerializeAll(os) + t, |os|) == Leaving(BytesOf(os), t)
  {
    hide WellFormed, Serialize, ReadUint64, HeadAt;
    if os == [] {
      assert SerializeAll(os) + t == t;
    } else {
      FirstOf(os, t);
      ReadsScalar(os[0], SerializeAll(os[1..]) + t);
      BytesMeaning(os[1..], t);
    }
  }

  lemma FloatMeaning(fc: Floats, o: Obj, t: Octets)
    requires WellFormed(o)
    ensures ParseTagged(fc, FLOAT, Serialize(o) + t) == Leaving(FloatOf(fc, HeadAt(o)), t)
  {
    FaceValue(o, t);
    ReadsScalar(o, t);
    CodesTell(o);
    hide WellFormed, Serialize, SerializeAll, ReadHead, ReadInt64, HeadAt, IsIntCode;
  }

  lemma BytesPayload(fc: Floats, o: Obj, t: Octets)
    requires WellFormed(o)
    ensures ParseTagged(fc, BYTES, Serialize(o) + t) == Leaving(PayloadOf(fc, BYTES, o), t)
  {
    FaceValue(o, t);
    ReadsText(o, t);
    ReadsCount(o, t);
    CodesTell(o);
    KidsAreWellFormed(o);
    hide WellFormed, Serialize, SerializeAll, ReadHead, ReadCount, ReadBin, HeadAt, IsArrayCode, ParseByteItems, BytesOf;
    if ItemsOf(o).Some? { BytesMeaning(o.kids, t); }
  }

  /** A map, and the key in front of its only value. */
  lemma MapHeader(o: Obj, t: Octets)
    requires WellFormed(o)
    ensures ReadCount(KMap, Serialize(o) + t) == Leaving(if FieldsOf(o).Some? then Some(|o.kids| / 2) else None, SerializeAll(o.kids) + t)
    ensures FieldsOf(o).Some? ==> |o.kids| % 2 == 0
    ensures Serialize(o) + t != [] && (IsMapCode((Serialize(o) + t)[0]) <==> FieldsOf(o).Some?)
    ensures |o.kids| == 2 ==>
      ReadStr(SerializeAll(o.kids) + t) == Leaving(TextOf(o.kids[0]), Serialize(o.kids[1]) + t)
      && WellFormed(o.kids[0]) && WellFormed(o.kids[1])
  {
    FaceValue(o, t);
    ReadsCount(o, t);
    CodesTell(o);
    KidsAreWellFormed(o);
    hide WellFormed, Serialize, SerializeAll, ReadCount, ReadStr, ReadHead, HeadAt, IsMapCode;
    if |o.kids| == 2 {
      TwoOf(o.kids, t);
      ReadsText(o.kids[0], Serialize(o.kids[1]) + t);
    }
  }

  lemma {:induction false} ValueMeaning(fc: Floats, o: Obj, t: Octets)
    requires WellFormed(o)
    ensures ParseValue(fc, Serialize(o) + t) == Leaving(ValueOf(fc, o), t)
    decreases o, 1
  {
    StringCode(o, t);
    MapHeader(o, t);
    hide WellFormed, Serialize, SerializeAll, ReadCount, ReadStr, FieldsOf, TextOf, IsStringCode, IsMapCode, ParseTagged, PayloadOf;
    if |o.kids| == 2 && TextOf(o.kids[0]).Some? { PayloadMeaning(fc, TextOf(o.kids[0]).value, o.kids[1], t); }
  }

  lemma StringCode(o: Obj, t: Octets)
    requires WellFormed(o)
    ensures Serialize(o) + t != [] && (IsStringCode((Serialize(o) + t)[0]) <==> TextOf(o).Some?)
    ensures ReadStr(Serialize(o) + t) == Leaving(TextOf(o), t)
    ensures !(TextOf(o).Some? && FieldsOf(o).Some?)
  {
    FaceValue(o, t);
    ReadsText(o, t);
    CodesTell(o);
    hide WellFormed, Serialize, SerializeAll, ReadStr, ReadHead, HeadAt, IsStringCode;
  }

  lemma {:induction false} PayloadMeaning(fc: Floats, tag: Octets, o: Obj, t: Octets)
    requires WellFormed(o)
    ensures ParseTagged(fc, tag, Serialize(o) + t) == Leaving(PayloadOf(fc, tag, o), t)
    decreases o, 2
  {
    if tag == FLOAT {
      FloatMeaning(fc, o, t);
    } else if tag == BYTES {
      BytesPayload(fc, o, t);
    } else if tag == ARRAY || tag == MAP {
      ListMeaning(fc, tag, o, t);
    } else {
      ReadsText(o, t);
      ReadsScalar(o, t);
      hide WellFormed, Serialize, SerializeAll, ReadHead, ReadBool, ReadInt64, ReadStr, HeadAt;
    }
  }

  lemma {:induction false} ArrayLength(o: Obj, t: Octets)
    requires WellFormed(o)
    ensures ParseArrayLength(Serialize(o) + t) == Leaving(if ItemsOf(o).Some? then Some(|o.kids|) else None, SerializeAll(o.kids) + t)
  {
    FaceValue(o, t);
    ReadsCount(o, t);
    CodesTell(o);
    hide WellFormed, Serialize, SerializeAll, ReadCount, HeadAt, IsArrayCode;
  }

  lemma {:induction false} ListMeaning(fc: Floats, tag: Octets, o: Obj, t: Octets)
    requires WellFormed(o) && (tag == ARRAY || tag == MAP)
    ensures ParseTagged(fc, tag, Serialize(o) + t) == Leaving(PayloadOf(fc, tag, o), t)
    decreases o, 1
  {
    ArrayLength(o, t);
    KidsAreWellFormed(o);
    hide WellFormed, Serialize, SerializeAll, ParseArrayLength, HeadAt, ParseValues, ParseEntries, ValuesOf, EntriesOf;
    if ItemsOf(o).Some? {
      if tag == ARRAY { ValuesMeaning(fc, o.kids, t); } else { EntriesMeaning(fc, o.kids, t); }
    }
  }

  lemma {:induction false} ValuesMeaning(fc: Floats, os: seq<Obj>, t: Octets)
    requires forall k | k in os :: WellFormed(k)
    ensures ParseValues(fc, SerializeAll(os) + t, |os|) == Leaving(ValuesOf(fc, os), t)
    decreases os, 0
  {
    hide WellFormed, Serialize, ParseValue, ValueOf;
    if os == [] {
      assert SerializeAll(os) + t == t;
    } else {
      FirstOf(os, t);
      ValueMeaning(fc, os[0], SerializeAll(os[1..]) + t);
      ValuesMeaning(fc, os[1..], t);
    }
  }

  lemma {:induction false} EntryMeaning(fc: Floats, o: Obj, t: Octets)
    requires WellFormed(o)
    ensures ParseEntry(fc, Serialize(o) + t) == Leaving(EntryOf(fc, o), t)
    decreases o, 2
  {
    ArrayLength(o, t);
    KidsAreWellFormed(o);
    hide WellFormed, Serialize, SerializeAll, ParseArrayLength, HeadAt, ParseValue, ValueOf;
    if ItemsOf(o).Some? && |o.kids| == 2 {
      TwoOf(o.kids, t);
      ValueMeaning(fc, o.kids[0], Serialize(o.kids[1]) + t);
      ValueMeaning(fc, o.kids[1], t);
    }
  }

  lemma {:induction false} EntriesMeaning(fc: Floats, os: seq<Obj>, t: Octets)
    requires forall k | k in os :: WellFormed(k)
    ensures ParseEntries(fc, SerializeAll(os) + t, |os|) == Leaving(EntriesOf(fc, os), t)
    decreases os, 0
  {
    hide WellFormed, Serialize, ParseEntry, EntryOf;
    if os == [] {
      assert SerializeAll(os) + t == t;
    } else {
      FirstOf(os, t);
      EntryMeaning(fc, os[0], SerializeAll(os[1..]) + t);
      EntriesMeaning(fc, os[1..], t);
    }
  }

  // --- what the decoder accepts is one object ---

  /** Every accepted input starts with one whole object, and the object is what was consumed. */
  ghost predicate Skips<T>(s: Octets, parsed: Option<(T, Octets)>) {
    parsed.Some? ==> Skip(s) == Some(parsed.value.1)
  }

  ghost predicate SkipsMany<T>(s: Octets, n: nat, parsed: Option<(T, Octets)>) {
    parsed.Some? ==> SkipMany(s, n) == Some(parsed.value.1)
  }

  lemma SkipByHead(s: Octets)
    requires ReadHead(s).Some?
    ensures var (h, rest) := ReadHead(s).value;
      Skip(s) == if |rest| < BlobLength(h) then None else SkipMany(rest[BlobLength(h)..], KidCount(h))
  {
  }

  lemma SkipManySteps(s: Octets, n: nat)
    ensures SkipMany(s, 0) == Some(s)
    ensures n > 0 ==> SkipMany(s, n) == if Skip(s).None? then None else SkipMany(Skip(s).value, n - 1)
  {
  }

  lemma BlobSkips(k: Kind, s: Octets)
    requires k == KStr || k == KBin
    ensures Skips(s, ReadBlob(k, s))
  {
    hide ReadHead, Skip;
    if ReadBlob(k, s).Some? {
      SkipByHead(s);
      SkipManySteps(ReadBlob(k, s).value.1, 0);
    }
  }

  lemma ScalarSkips(s: Octets)
    ensures Skips(s, ReadBool(s)) && Skips(s, ReadInt64(s)) && Skips(s, ReadUint64(s))
    ensures ReadHead(s).Some? && !ReadHead(s).value.0.HSized? ==> Skips(s, ReadHead(s))
  {
    hide ReadHead, Skip;
    if ReadHead(s).Some? {
      SkipByHead(s);
      var rest := ReadHead(s).value.1;
      SkipManySteps(rest, 0);
      assert rest[0..] == rest;
    }
  }

  lemma CountSkips(s: Octets)
    ensures ReadCount(KArray, s).Some? ==> Skip(s) == SkipMany(ReadCount(KArray, s).value.1, ReadCount(KArray, s).value.0)
    ensures ReadCount(KMap, s).Some? ==> Skip(s) == SkipMany(ReadCount(KMap, s).value.1, 2 * ReadCount(KMap, s).value.0)
  {
    hide ReadHead, Skip, SkipMany;
    if ReadHead(s).Some? {
      SkipByHead(s);
      var rest := ReadHead(s).value.1;
      assert rest[0..] == rest;
    }
  }

  /** Two objects in a row. */
  lemma SkipTwo(s: Octets, u: Octets, t: Octets)
    requires Skip(s) == Some(u) && Skip(u) == Some(t)
    ensures SkipMany(s, 2) == Some(t)
  {
    hide Skip;
    SkipManySteps(s, 2);
    SkipManySteps(u, 1);
    SkipManySteps(t, 0);
  }

  lemma {:induction false} ByteItemsSkip(s: Octets, n: nat)
    ensures SkipsMany(s, n, ParseByteItems(s, n))
    decreases n
  {
    hide ReadUint64, Skip;
    SkipManySteps(s, n);
    if n > 0 && ReadUint64(s).Some? {
      ScalarSkips(s);
      ByteItemsSkip(ReadUint64(s).value.1, n - 1);
    }
  }

  lemma {:induction false} ValueSkips(fc: Floats, s: Octets)
    ensures Skips(s, ParseValue(fc, s))
    decreases |s|, 0
  {
    hide ReadCount, ReadStr, Skip, SkipMany, IsStringCode, IsMapCode, ParseTagged;
    BlobSkips(KStr, s);
    StrIsBlob(s);
    CountSkips(s);
    if ReadCount(KMap, s).Some? {
      var rest := ReadCount(KMap, s).value.1;
      if ReadStr(rest).Some? {
        var (tag, payload) := ReadStr(rest).value;
        BlobSkips(KStr, rest);
        StrIsBlob(rest);
        TaggedSkips(fc, tag, payload);
        if ParseTagged(fc, tag, payload).Some? { SkipTwo(rest, payload, ParseTagged(fc, tag, payload).value.1); }
      }
    }
  }

  lemma StrIsBlob(s: Octets)
    ensures ReadStr(s) == ReadBlob(KStr, s) && ReadBin(s) == ReadBlob(KBin, s)
  {
  }

  lemma {:induction false} TaggedSkips(fc: Floats, tag: Octets, s: Octets)
    ensures Skips(s, ParseTagged(fc, tag, s))
    decreases |s|, 3
  {
    if tag == ARRAY || tag == MAP {
      ListSkips(fc, tag, s);
    } else {
      BlobSkips(KStr, s);
      BlobSkips(KBin, s);
      StrIsBlob(s);
      ScalarSkips(s);
      CountSkips(s);
      if ReadCount(KArray, s).Some? { ByteItemsSkip(ReadCount(KArray, s).value.1, ReadCount(KArray, s).value.0); }
      PlainTaggedSkips(fc, tag, s);
    }
  }

  lemma PlainTaggedSkips(fc: Floats, tag: Octets, s: Octets)
    requires tag != ARRAY && tag != MAP
    requires Skips(s, ReadStr(s)) && Skips(s, ReadBin(s)) && Skips(s, ReadBool(s)) && Skips(s, ReadInt64(s))
    requires ReadHead(s).Some? && !ReadHead(s).value.0.HSized? ==> Skips(s, ReadHead(s))
    requires ReadCount(KArray, s).Some? ==> (
      var (n, rest) := ReadCount(KArray, s).value;
      Skip(s) == SkipMany(rest, n) && SkipsMany(rest, n, ParseByteItems(rest, n)))
    ensures Skips(s, ParseTagged(fc, tag, s))
  {
    hide ReadHead, ReadStr, ReadBin, ReadBool, ReadInt64, ReadCount, Skip, SkipMany, ParseByteItems, IsIntCode, IsArrayCode;
  }

  lemma LengthIsCount(s: Octets)
    ensures ParseArrayLength(s).Some? ==> ParseArrayLength(s) == ReadCount(KArray, s)
  {
  }

  lemma {:induction false} ListSkips(fc: Floats, tag: Octets, s: Octets)
    requires tag == ARRAY || tag == MAP
    ensures Skips(s, ParseTagged(fc, tag, s))
    decreases |s|, 2
  {
    hide ReadCount, Skip, SkipMany, ParseArrayLength, ParseValues, ParseEntries;
    LengthIsCount(s);
    CountSkips(s);
    if ParseArrayLength(s).Some? {
      var (n, rest) := ParseArrayLength(s).value;
      ValuesSkip(fc, rest, n);
      EntriesSkip(fc, rest, n);
    }
  }

  lemma {:induction false} ValuesSkip(fc: Floats, s: Octets, n: nat)
    ensures SkipsMany(s, n, ParseValues(fc, s, n))
    decreases |s|, 1, n
  {
    hide ParseValue, Skip;
    SkipManySteps(s, n);
    if n > 0 && ParseValue(fc, s).Some? {
      ValueSkips(fc, s);
      ValuesSkip(fc, ParseValue(fc, s).value.1, n - 1);
    }
  }

  lemma {:induction false} EntrySkips(fc: Floats, s: Octets)
    ensures Skips(s, ParseEntry(fc, s))
    decreases |s|, 1
  {
    hide ReadCount, Skip, SkipMany, ParseArrayLength, ParseValue;
    LengthIsCount(s);
    CountSkips(s);
    if ParseEntry(fc, s).Some? {
      var rest := ParseArrayLength(s).value.1;
      var rest' := ParseValue(fc, rest).value.1;
      ValueSkips(fc, rest);
      ValueSkips(fc, rest');
      SkipTwo(rest, rest', ParseValue(fc, rest').value.1);
    }
  }

  lemma {:induction false} EntriesSkip(fc: Floats, s: Octets, n: nat)
    ensures SkipsMany(s, n, ParseEntries(fc, s, n))
    decreases |s|, 2, n
  {
    hide ParseEntry, Skip;
    SkipManySteps(s, n);
    if n > 0 && ParseEntry(fc, s).Some? {
      EntrySkips(fc, s);
      EntriesSkip(fc, ParseEntry(fc, s).value.1, n - 1);
    }
  }

  // --- Values ---

  /** The streaming decoder reads a Value exactly off the objects that mean one, and
      it reads what they mean. */
  lemma ParseValueIff(fc: Floats, s: Octets, v: Value, t: Octets)
    ensures ParseValue(fc, s) == Some((v, t)) <==> exists o :: WellFormed(o) && s == Serialize(o) + t && ValueOf(fc, o) == Some(v)
  {
    hide ParseValue, Skip, WellFormed, Serialize, ValueOf;
    if ParseValue(fc, s) == Some((v, t)) {
      ValueSkips(fc, s);
      var o := SkippedIsObject(s);
      ValueMeaning(fc, o, t);
    }
    forall o | WellFormed(o) && s == Serialize(o) + t && ValueOf(fc, o) == Some(v) ensures ParseValue(fc, s) == Some((v, t)) {
      ValueMeaning(fc, o, t);
    }
  }

  // --- Requests and Responses ---

  lemma IdMeaning(o: Obj, t: Octets)
    requires WellFormed(o)
    ensures ParseFrameId(Serialize(o) + t) == Leaving(IdAt(o), t)
  {
    ReadsScalar(o, t);
    hide WellFormed, Serialize, HeadAt, ReadUint64;
  }

  lemma ArgsMeaning(fc: Floats, o: Obj, t: Octets)
    requires WellFormed(o)
    ensures ParseArray(fc, Serialize(o) + t) == Leaving(ArgsAt(fc, o), t)
  {
    ArrayLength(o, t);
    KidsAreWellFormed(o);
    hide WellFormed, Serialize, SerializeAll, ParseArrayLength, ItemsOf, ParseValues, ValuesOf;
    if ItemsOf(o).Some? { ValuesMeaning(fc, o.kids, t); }
  }

  lemma FieldMeaning(fc: Floats, name: Octets, o: Obj, got: Partial, t: Octets)
    requires WellFormed(o)
    ensures ParsePayload(fc, name, Serialize(o) + t, got) == Leaving(Gained(fc, name, o, got), t)
  {
    IdMeaning(o, t);
    ReadsText(o, t);
    ArgsMeaning(fc, o, t);
    SkipObject(o, t);
    hide WellFormed, Serialize, ParseFrameId, ReadStr, ParseArray, Skip, IdAt, TextOf, ArgsAt;
  }

  lemma GatheredSteps(fc: Floats, kids: seq<Obj>, got: Partial)
    ensures |kids| < 2 ==> Gathered(fc, kids, got) == Some(got)
    ensures |kids| >= 2 && TextOf(kids[0]).None? ==> Gathered(fc, kids, got) == None
    ensures |kids| >= 2 && TextOf(kids[0]).Some? ==> (
      var next := Gained(fc, TextOf(kids[0]).value, kids[1], got);
      Gathered(fc, kids, got) == if next.None? then None else Gathered(fc, kids[2..], next.value))
  {
    hide Gained, TextOf;
  }

  lemma {:induction false} FieldsMeaning(fc: Floats, kids: seq<Obj>, got: Partial, t: Octets)
    requires |kids| % 2 == 0 && forall k | k in kids :: WellFormed(k)
    ensures ParseFields(fc, SerializeAll(kids) + t, |kids| / 2, got) == Leaving(Gathered(fc, kids, got), t)
    decreases |kids|
  {
    hide WellFormed, Serialize, SerializeAll, ReadStr, ParsePayload, Gained, Gathered, TextOf, ParseFields;
    GatheredSteps(fc, kids, got);
    if kids == [] {
      NoBytes(t);
      FieldsEnd(fc, t, got);
    } else {
      var rest := SerializeAll(kids[2..]) + t;
      assert kids[1..][1..] == kids[2..];
      FirstOf(kids, t);
      FirstOf(kids[1..], t);
      ReadsText(kids[0], Serialize(kids[1]) + rest);
      FieldsStep(fc, SerializeAll(kids) + t, |kids| / 2, got);
      if TextOf(kids[0]).Some? {
        FieldMeaning(fc, TextOf(kids[0]).value, kids[1], got, rest);
        if Gained(fc, TextOf(kids[0]).value, kids[1], got).Some? {
          FieldsMeaning(fc, kids[2..], Gained(fc, TextOf(kids[0]).value, kids[1], got).value, t);
        }
      }
    }
  }

  lemma NoBytes(t: Octets)
    ensures SerializeAll([]) + t == t
  {
  }

  lemma ThreeOf(os: seq<Obj>, t: Octets)
    requires |os| == 3
    ensures SerializeAll(os) + t == Serialize(os[0]) + (Serialize(os[1]) + (Serialize(os[2]) + t))
  {
    hide Serialize, SerializeAll;
    FirstOf(os, t);
    TwoOf(os[1..], t);
  }

  lemma ArrayShapedMeaning(fc: Floats, o: Obj, t: Octets)
    requires WellFormed(o) && ItemsOf(o).Some?
    ensures ParseArrayShaped(fc, Serialize(o) + t) == Leaving(RequestOf(fc, o), t)
  {
    ReadsCount(o, t);
    KidsAreWellFormed(o);
    hide WellFormed, Serialize, SerializeAll, ReadCount, ReadStr, ParseFrameId, ParseArray, IdAt, TextOf, ArgsAt, Gathered;
    if |o.kids| == 3 {
      ThreeOf(o.kids, t);
      IdMeaning(o.kids[0], Serialize(o.kids[1]) + (Serialize(o.kids[2]) + t));
      ReadsText(o.kids[1], Serialize(o.kids[2]) + t);
      ArgsMeaning(fc, o.kids[2], t);
    }
    NotBoth(o);
  }

  lemma NotBoth(o: Obj)
    ensures !(ItemsOf(o).Some? && FieldsOf(o).Some?)
  {
  }

  lemma MapShapedMeaning(fc: Floats, o: Obj, t: Octets)
    requires WellFormed(o) && FieldsOf(o).Some?
    ensures ParseMapShaped(fc, Serialize(o) + t) == Leaving(RequestOf(fc, o), t)
  {
    MapHeader(o, t);
    KidsAreWellFormed(o);
    NotBoth(o);
    FieldsMeaning(fc, o.kids, NOTHING, t);
    hide WellFormed, Serialize, SerializeAll, ReadCount, ParseFields, Gathered, FieldsOf, ItemsOf, IdAt, TextOf, ArgsAt;
  }

  lemma RequestMeaning(fc: Floats, o: Obj, t: Octets)
    requires WellFormed(o)
    ensures ParseRequest(fc, Serialize(o) + t) == Leaving(RequestOf(fc, o), t)
  {
    FaceValue(o, t);
    CodesTell(o);
    NotBoth(o);
    hide WellFormed, Serialize, SerializeAll, ReadHead, IsArrayCode, IsMapCode, FieldsOf, ItemsOf, ParseArrayShaped, ParseMapShaped, Gathered;
    if ItemsOf(o).Some? {
      ArrayShapedMeaning(fc, o, t);
    } else if FieldsOf(o).Some? {
      MapShapedMeaning(fc, o, t);
    }
  }

  lemma ArmMeaning(fc: Floats, id: u32, arm: Octets, o: Obj, t: Octets)
    requires WellFormed(o)
    ensures ParseArm(fc, id, arm, Serialize(o) + t) == Leaving(ArmOf(fc, id, arm, o), t)
  {
    ValueMeaning(fc, o, t);
    ReadsText(o, t);
    hide WellFormed, Serialize, HeadAt, ReadStr, ParseValue, ValueOf;
  }

  lemma ResultMeaning(fc: Floats, id: u32, o: Obj, t: Octets)
    requires WellFormed(o)
    ensures ParseResult(fc, id, Serialize(o) + t) == Leaving(ResultOf(fc, id, o), t)
  {
    MapHeader(o, t);
    hide WellFormed, Serialize, SerializeAll, ReadCount, ReadStr, IsMapCode, FieldsOf, TextOf, ParseArm, ArmOf;
    if |o.kids| == 2 && TextOf(o.kids[0]).Some? { ArmMeaning(fc, id, TextOf(o.kids[0]).value, o.kids[1], t); }
  }

  lemma ResponseMeaning(fc: Floats, o: Obj, t: Octets)
    requires WellFormed(o)
    ensures ParseResponse(fc, Serialize(o) + t) == Leaving(ResponseOf(fc, o), t)
  {
    ArrayLength(o, t);
    KidsAreWellFormed(o);
    hide WellFormed, Serialize, SerializeAll, ParseArrayLength, ParseFrameId, ItemsOf, IdAt, ParseResult, ResultOf;
    if ItemsOf(o).Some? && |o.kids| == 2 {
      TwoOf(o.kids, t);
      IdMeaning(o.kids[0], Serialize(o.kids[1]) + t);
      if IdAt(o.kids[0]).Some? { ResultMeaning(fc, IdAt(o.kids[0]).value, o.kids[1], t); }
    }
  }

  // --- an accepted body starts with one object ---

  lemma IdSkips(s: Octets)
    ensures Skips(s, ParseFrameId(s))
  {
    hide ReadUint64, Skip;
    ScalarSkips(s);
  }

  lemma ArgsSkip(fc: Floats, s: Octets)
    ensures Skips(s, ParseArray(fc, s))
  {
    hide ReadCount, Skip, SkipMany, ParseArrayLength, ParseValues;
    LengthIsCount(s);
    CountSkips(s);
    if ParseArrayLength(s).Some? { ValuesSkip(fc, ParseArrayLength(s).value.1, ParseArrayLength(s).value.0); }
  }

  lemma PayloadSkips(fc: Floats, name: Octets, s: Octets, got: Partial)
    ensures Skips(s, ParsePayload(fc, name, s, got))
  {
    hide ParseFrameId, ReadStr, ParseArray, Skip;
    IdSkips(s);
    BlobSkips(KStr, s);
    StrIsBlob(s);
    ArgsSkip(fc, s);
  }

  lemma {:induction false} FieldsSkip(fc: Floats, s: Octets, n: nat, got: Partial)
    ensures SkipsMany(s, 2 * n, ParseFields(fc, s, n, got))
    decreases n
  {
    hide ReadStr, ParsePayload, Skip, SkipMany;
    SkipManySteps(s, 2 * n);
    if n > 0 && ParseField(fc, s, got).Some? {
      var payload := ReadStr(s).value.1;
      var (got', rest) := ParseField(fc, s, got).value;
      BlobSkips(KStr, s);
      StrIsBlob(s);
      PayloadSkips(fc, ReadStr(s).value.0, payload, got);
      SkipManySteps(payload, 2 * n - 1);
      FieldsSkip(fc, rest, n - 1, got');
    }
  }

  lemma CallSkips(fc: Floats, s: Octets)
    ensures Skips(s, ParseArrayShaped(fc, s))
  {
    hide ReadCount, ReadStr, ParseFrameId, ParseArray, Skip, SkipMany;
    CountSkips(s);
    if ParseArrayShaped(fc, s).Some? {
      var rest := ReadCount(KArray, s).value.1;
      var rest' := ParseFrameId(rest).value.1;
      var rest'' := ReadStr(rest').value.1;
      IdSkips(rest);
      BlobSkips(KStr, rest');
      StrIsBlob(rest');
      ArgsSkip(fc, rest'');
      SkipTwo(rest', rest'', ParseArray(fc, rest'').value.1);
      SkipManySteps(rest, 3);
    }
  }

  lemma RequestSkips(fc: Floats, s: Octets)
    ensures Skips(s, ParseRequest(fc, s))
  {
    hide ReadCount, ParseArrayShaped, ParseFields, Complete, Skip, SkipMany, IsArrayCode, IsMapCode;
    CallSkips(fc, s);
    CountSkips(s);
    if ReadCount(KMap, s).Some? { FieldsSkip(fc, ReadCount(KMap, s).value.1, ReadCount(KMap, s).value.0, NOTHING); }
  }

  lemma ResultSkips(fc: Floats, id: u32, s: Octets)
    ensures Skips(s, ParseResult(fc, id, s))
  {
    hide ReadCount, ReadStr, ParseValue, Skip, SkipMany, IsMapCode;
    CountSkips(s);
    if ParseResult(fc, id, s).Some? {
      var rest := ReadCount(KMap, s).value.1;
      var payload := ReadStr(rest).value.1;
      BlobSkips(KStr, rest);
      StrIsBlob(rest);
      ValueSkips(fc, payload);
      BlobSkips(KStr, payload);
      StrIsBlob(payload);
      SkipTwo(rest, payload, ParseResult(fc, id, s).value.1);
    }
  }

  lemma ResponseSkips(fc: Floats, s: Octets)
    ensures Skips(s, ParseResponse(fc, s))
  {
    hide ReadCount, ParseArrayLength, ParseFrameId, ParseResult, Skip, SkipMany;
    LengthIsCount(s);
    CountSkips(s);
    if ParseResponse(fc, s).Some? {
      var rest := ParseArrayLength(s).value.1;
      var (id, rest') := ParseFrameId(rest).value;
      IdSkips(rest);
      ResultSkips(fc, id, rest');
      SkipTwo(rest, rest', ParseResponse(fc, s).value.1);
    }
  }

  /** A body is a Request exactly when it starts with an object that means one, array
      or map, in any formats; and it is the one meant. */
  lemma ParseRequestIff(fc: Floats, s: Octets, req: Request, t: Octets)
    ensures ParseRequest(fc, s) == Some((req, t))
      <==> exists o :: WellFormed(o) && s == Serialize(o) + t && RequestOf(fc, o) == Some(req)
  {
    hide ParseRequest, Skip, WellFormed, Serialize, RequestOf;
    if ParseRequest(fc, s) == Some((req, t)) {
      RequestSkips(fc, s);
      var o := SkippedIsObject(s);
      RequestMeaning(fc, o, t);
    }
    forall o | WellFormed(o) && s == Serialize(o) + t && RequestOf(fc, o) == Some(req)
      ensures ParseRequest(fc, s) == Some((req, t))
    {
      RequestMeaning(fc, o, t);
    }
  }

  /** The same for Responses. */
  lemma ParseResponseIff(fc: Floats, s: Octets, resp: Response, t: Octets)
    ensures ParseResponse(fc, s) == Some((resp, t))
      <==> exists o :: WellFormed(o) && s == Serialize(o) + t && ResponseOf(fc, o) == Some(resp)
  {
    hide ParseResponse, Skip, WellFormed, Serialize, ResponseOf;
    if ParseResponse(fc, s) == Some((resp, t)) {
      ResponseSkips(fc, s);
      var o := SkippedIsObject(s);
      ResponseMeaning(fc, o, t);
    }
    forall o | WellFormed(o) && s == Serialize(o) + t && ResponseOf(fc, o) == Some(resp)
      ensures ParseResponse(fc, s) == Some((resp, t))
    {
      ResponseMeaning(fc, o, t);
    }
  }

  /** A body decodes exactly if it starts with an object that means a message, and
      whatever follows that object is ignored. */
  lemma DecodeRequestIff(fc: Floats, body: Octets, req: Request)
    ensures DecodeRequestBody(fc, body) == Some(req)
      <==> exists o, t :: WellFormed(o) && body == Serialize(o) + t && RequestOf(fc, o) == Some(req)
  {
    hide ParseRequest, WellFormed, Serialize, RequestOf;
    if DecodeRequestBody(fc, body) == Some(req) {
      ParseRequestIff(fc, body, req, ParseRequest(fc, body).value.1);
    }
    forall o, t | WellFormed(o) && body == Serialize(o) + t && RequestOf(fc, o) == Some(req)
      ensures DecodeRequestBody(fc, body) == Some(req)
    {
      ParseRequestIff(fc, body, req, t);
    }
  }

  lemma DecodeResponseIff(fc: Floats, body: Octets, resp: Response)
    ensures DecodeResponseBody(fc, body) == Some(resp)
      <==> exists o, t :: WellFormed(o) && body == Serialize(o) + t && ResponseOf(fc, o) == Some(resp)
  {
    hide ParseResponse, WellFormed, Serialize, ResponseOf;
    if DecodeResponseBody(fc, body) == Some(resp) {
      ParseResponseIff(fc, body, resp, ParseResponse(fc, body).value.1);
    }
    forall o, t | WellFormed(o) && body == Serialize(o) + t && ResponseOf(fc, o) == Some(resp)
      ensures DecodeResponseBody(fc, body) == Some(resp)
    {
      ParseResponseIff(fc, body, resp, t);
    }
  }
}
