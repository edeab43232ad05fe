/**
 What holds of the decoder on every byte string, valid or not: a success
 depends on the consumed bytes alone, consumes at least five bytes a value,
 and yields only values that can be written again.
 */
module CodecLocality {
  import opened Wrappers
  import opened MsgPack
  import opened MsgPackObject
  import opened Values
  import opened Codec
  import opened CodecRoundTrip

  /** `small` is the parse of some input and `big` the parse of the same input
      with t behind it: they succeed together (as far as big does not reach into
      t), with the same item, and t stays behind. */
  ghost predicate Local<T>(small: Option<(T, Octets)>, big: Option<(T, Octets)>, t: Octets) {
    && (small.Some? <==> big.Some? && |big.value.1| >= |t|)
    && (small.Some? ==> big == Some((small.value.0, small.value.1 + t)))
  }

  /** A parse that leaves exactly t consumed the rest of its input whole. */
  lemma Whole<T>(small: Option<(T, Octets)>, big: Option<(T, Octets)>, t: Octets)
    requires Local(small, big, t) && big.Some? && |big.value.1| == |t|
    ensures small == Some((big.value.0, [])) && big.value.1 == t
  {
    assert [] + t == t;
  }

  lemma LocalHead(s: Octets, t: Octets)
    ensures Local(ReadHead(s), ReadHead(s + t), t)
    ensures s != [] ==> (s + t)[0] == s[0]
  {
    if ReadHead(s).Some? {
      ReadHeadExtends(s, t);
    }
    if ReadHead(s + t).Some? && |ReadHead(s + t).value.1| >= |t| {
      ReadHeadShrinks(s, t);
    }
  }

  lemma LocalUint64(s: Octets, t: Octets)
    ensures Local(ReadUint64(s), ReadUint64(s + t), t)
  {
    LocalHead(s, t);
  }

  lemma LocalCount(k: Kind, s: Octets, t: Octets)
    ensures Local(ReadCount(k, s), ReadCount(k, s + t), t)
  {
    LocalHead(s, t);
  }

  lemma LocalCode(s: Octets, t: Octets)
    requires s != []
    ensures s + t != [] && (s + t)[0] == s[0]
  {
  }

  lemma LocalBlob(k: Kind, s: Octets, t: Octets)
    ensures Local(ReadBlob(k, s), ReadBlob(k, s + t), t)
  {
    LocalHead(s, t);
    if ReadCount(k, s).Some? {
      var (n, rest) := ReadCount(k, s).value;
      if n <= |rest| {
        assert (rest + t)[..n] == rest[..n] && (rest + t)[n..] == rest[n..] + t;
      }
    }
  }

  lemma LocalFloat(fc: Floats, s: Octets, t: Octets)
    ensures Local(ParseFloat(fc, s), ParseFloat(fc, s + t), t)
  {
    LocalHead(s, t);
    if s == [] {
      assert s + t == t;
    }
  }

  lemma LocalFrameId(s: Octets, t: Octets)
    ensures Local(ParseFrameId(s), ParseFrameId(s + t), t)
  {
    LocalHead(s, t);
  }

  lemma LocalArrayLength(s: Octets, t: Octets)
    ensures Local(ParseArrayLength(s), ParseArrayLength(s + t), t)
  {
    LocalHead(s, t);
    if s == [] {
      assert s + t == t;
    }
  }

  lemma {:induction false} LocalByteItems(s: Octets, n: nat, t: Octets)
    ensures Local(ParseByteItems(s, n), ParseByteItems(s + t, n), t)
    decreases n
  {
    hide ReadUint64;
    if n > 0 {
      LocalUint64(s, t);
      if ReadUint64(s).Some? {
        var (u, rest) := ReadUint64(s).value;
        LocalByteItems(rest, n - 1, t);
      }
    }
  }

  lemma LocalBytes(s: Octets, t: Octets)
    ensures Local(ParseBytes(s), ParseBytes(s + t), t)
  {
    LocalHead(s, t);
    LocalBlob(KBin, s, t);
    if s == [] {
      assert s + t == t;
    } else if IsArrayCode(s[0]) && ReadCount(KArray, s).Some? {
      var (n, rest) := ReadCount(KArray, s).value;
      LocalByteItems(rest, n, t);
    }
  }

  lemma {:induction false} LocalValue(fc: Floats, s: Octets, t: Octets)
    ensures Local(ParseValue(fc, s), ParseValue(fc, s + t), t)
    decreases |s|, 0
  {
    hide ReadHead, ParseTagged;
    LocalHead(s, t);
    if s == [] {
      assert s + t == t;
    } else if IsStringCode(s[0]) {
      LocalBlob(KStr, s, t);
    } else if IsMapCode(s[0]) && ReadCount(KMap, s).Some? {
      var rest := ReadCount(KMap, s).value.1;
      LocalBlob(KStr, rest, t);
      if ReadStr(rest).Some? {
        var (tag, payload) := ReadStr(rest).value;
        LocalTagged(fc, tag, payload, t);
      }
    }
  }

  lemma {:induction false} LocalTagged(fc: Floats, tag: Octets, s: Octets, t: Octets)
    ensures Local(ParseTagged(fc, tag, s), ParseTagged(fc, tag, s + t), t)
    decreases |s|, 3
  {
    hide ReadHead, ParseFloat, ParseBytes, ParseArray, ParseEntries, ParseArrayLength;
    if tag == BOOL || tag == INT {
      LocalHead(s, t);
    } else if tag == FLOAT {
      LocalFloat(fc, s, t);
    } else if tag == STR {
      LocalBlob(KStr, s, t);
    } else if tag == BYTES {
      LocalBytes(s, t);
    } else if tag == ARRAY {
      LocalArray(fc, s, t);
    } else if tag == MAP {
      LocalArrayLength(s, t);
      if ParseArrayLength(s).Some? {
        var (n, rest) := ParseArrayLength(s).value;
        LocalEntries(fc, rest, n, t);
      }
    }
  }

  lemma {:induction false} LocalArray(fc: Floats, s: Octets, t: Octets)
    ensures Local(ParseArray(fc, s), ParseArray(fc, s + t), t)
    decreases |s|, 2
  {
    hide ParseValues, ParseArrayLength;
    LocalArrayLength(s, t);
    if ParseArrayLength(s).Some? {
      var (n, rest) := ParseArrayLength(s).value;
      LocalValues(fc, rest, n, t);
    }
  }

  lemma {:induction false} LocalValues(fc: Floats, s: Octets, n: nat, t: Octets)
    ensures Local(ParseValues(fc, s, n), ParseValues(fc, s + t, n), t)
    decreases |s|, 1
  {
    hide ParseValue, ParseValues;
    if n == 0 {
      ValuesEnd(fc, s);
      ValuesEnd(fc, s + t);
    } else {
      ValuesStep(fc, s, n);
      ValuesStep(fc, s + t, n);
      LocalValue(fc, s, t);
      if ParseValue(fc, s).Some? {
        var (v, rest) := ParseValue(fc, s).value;
        LocalValues(fc, rest, n - 1, t);
      }
    }
  }

  lemma {:induction false} LocalEntry(fc: Floats, s: Octets, t: Octets)
    ensures Local(ParseEntry(fc, s), ParseEntry(fc, s + t), t)
    decreases |s|, 1
  {
    hide ParseValue, ParseArrayLength;
    LocalArrayLength(s, t);
    if ParseArrayLength(s).Some? {
      var rest := ParseArrayLength(s).value.1;
      LocalValue(fc, rest, t);
      if ParseValue(fc, rest).Some? {
        LocalValue(fc, ParseValue(fc, rest).value.1, t);
      }
    }
  }

  lemma {:induction false} LocalEntries(fc: Floats, s: Octets, n: nat, t: Octets)
    ensures Local(ParseEntries(fc, s, n), ParseEntries(fc, s + t, n), t)
    decreases |s|, 2
  {
    hide ParseEntry, ParseEntries;
    if n == 0 {
      EntriesEnd(fc, s);
      EntriesEnd(fc, s + t);
    } else {
      EntriesStep(fc, s, n);
      EntriesStep(fc, s + t, n);
      LocalEntry(fc, s, t);
      if ParseEntry(fc, s).Some? {
        var (e, rest) := ParseEntry(fc, s).value;
        LocalEntries(fc, rest, n - 1, t);
      }
    }
  }

  // --- messages ---

  lemma LocalSkip(s: Octets, t: Octets)
    ensures Skip(s).Some? <==> Skip(s + t).Some? && |Skip(s + t).value| >= |t|
    ensures Skip(s).Some? ==> Skip(s + t) == Some(Skip(s).value + t)
  {
    hide WellFormed, Serialize, Skip;
    if Skip(s).Some? {
      var o := SkippedIsObject(s);
      Append(Serialize(o), Skip(s).value, t);
      SkipObject(o, Skip(s).value + t);
    }
    if Skip(s + t).Some? && |Skip(s + t).value| >= |t| {
      var o := SkippedIsObject(s + t);
      var k := |Serialize(o)|;
      assert s[..k] == (s + t)[..k] == Serialize(o);
      SkipObject(o, s[k..]);
      assert s == s[..k] + s[k..];
    }
  }

  lemma LocalPayload(fc: Floats, key: Octets, s: Octets, got: Partial, t: Octets)
    ensures Local(ParsePayload(fc, key, s, got), ParsePayload(fc, key, s + t, got), t)
  {
    hide ReadHead, Skip;
    if key == ID { LocalFrameId(s, t); }
    else if key == COMMAND { LocalBlob(KStr, s, t); }
    else if key == ARGS { LocalArray(fc, s, t); }
    else { LocalSkip(s, t); }
  }

  lemma LocalField(fc: Floats, s: Octets, got: Partial, t: Octets)
    ensures Local(ParseField(fc, s, got), ParseField(fc, s + t, got), t)
  {
    hide ReadHead, ParsePayload;
    LocalBlob(KStr, s, t);
    if ReadStr(s).Some? {
      var (key, payload) := ReadStr(s).value;
      LocalPayload(fc, key, payload, got, t);
    }
  }

  lemma {:induction false} LocalFields(fc: Floats, s: Octets, n: nat, got: Partial, t: Octets)
    ensures Local(ParseFields(fc, s, n, got), ParseFields(fc, s + t, n, got), t)
    decreases n
  {
    hide ParseField;
    if n > 0 {
      LocalField(fc, s, got, t);
      if ParseField(fc, s, got).Some? {
        var (got', rest) := ParseField(fc, s, got).value;
        LocalFields(fc, rest, n - 1, got', t);
      }
    }
  }

  lemma LocalCall(fc: Floats, id: u32, s: Octets, t: Octets)
    ensures Local(ParseCall(fc, id, s), ParseCall(fc, id, s + t), t)
  {
    LocalBlob(KStr, s, t);
    if ReadStr(s).Some? {
      var (command, rest) := ReadStr(s).value;
      LocalArray(fc, rest, t);
    }
  }

  lemma LocalArrayShaped(fc: Floats, s: Octets, t: Octets)
    ensures Local(ParseArrayShaped(fc, s), ParseArrayShaped(fc, s + t), t)
  {
    LocalCount(KArray, s, t);
    if ReadCount(KArray, s).Some? {
      var (n, rest) := ReadCount(KArray, s).value;
      LocalFrameId(rest, t);
      if ParseFrameId(rest).Some? {
        var (id, rest') := ParseFrameId(rest).value;
        LocalCall(fc, id, rest', t);
      }
    }
  }

  lemma LocalMapShaped(fc: Floats, s: Octets, t: Octets)
    ensures Local(ParseMapShaped(fc, s), ParseMapShaped(fc, s + t), t)
  {
    LocalCount(KMap, s, t);
    if ReadCount(KMap, s).Some? {
      var (n, rest) := ReadCount(KMap, s).value;
      LocalFields(fc, rest, n, NOTHING, t);
    }
  }

  /** A decoded Request depends only on the bytes it consumed, in both shapes. */
  lemma LocalRequest(fc: Floats, s: Octets, t: Octets)
    ensures Local(ParseRequest(fc, s), ParseRequest(fc, s + t), t)
  {
    if s == [] {
      assert s + t == t;
    } else {
      LocalCode(s, t);
      LocalArrayShaped(fc, s, t);
      LocalMapShaped(fc, s, t);
    }
  }

  lemma LocalArm(fc: Floats, id: u32, arm: Octets, s: Octets, t: Octets)
    ensures Local(ParseArm(fc, id, arm, s), ParseArm(fc, id, arm, s + t), t)
  {
    if arm == OK { LocalValue(fc, s, t); }
    else if arm == ERR { LocalBlob(KStr, s, t); }
  }

  lemma LocalResult(fc: Floats, id: u32, s: Octets, t: Octets)
    ensures Local(ParseResult(fc, id, s), ParseResult(fc, id, s + t), t)
  {
    if s == [] {
      assert s + t == t;
    } else {
      LocalCode(s, t);
      LocalCount(KMap, s, t);
      if IsMapCode(s[0]) && ReadCount(KMap, s).Some? {
        var rest := ReadCount(KMap, s).value.1;
        LocalBlob(KStr, rest, t);
        if ReadStr(rest).Some? {
          var (arm, payload) := ReadStr(rest).value;
          LocalArm(fc, id, arm, payload, t);
        }
      }
    }
  }

  lemma LocalResponse(fc: Floats, s: Octets, t: Octets)
    ensures Local(ParseResponse(fc, s), ParseResponse(fc, s + t), t)
  {
    LocalArrayLength(s, t);
    if ParseArrayLength(s).Some? {
      var rest := ParseArrayLength(s).value.1;
      LocalFrameId(rest, t);
      if ParseFrameId(rest).Some? {
        var (id, rest') := ParseFrameId(rest).value;
        LocalResult(fc, id, rest', t);
      }
    }
  }

  /** What a parse consumed, alone, parses to the same item. */
  lemma ConsumedBytesSuffice(fc: Floats, s: Octets, c: Octets)
    requires ParseValue(fc, s).Some? && s == c + ParseValue(fc, s).value.1
    ensures ParseValue(fc, c) == Some((ParseValue(fc, s).value.0, []))
  {
    LocalValue(fc, c, ParseValue(fc, s).value.1);
  }

  // --- what a success costs and what it yields ---

  lemma StrLength(s: Octets)
    requires ReadStr(s).Some?
    ensures |ReadStr(s).value.0| < 0x1_0000_0000
  {
    CountsAreU32(s);
  }

  /** A decoded value of k nodes took at least 5k bytes and has lengths the
      encoder can write. */
  lemma {:induction false} ParsedValue(fc: Floats, s: Octets)
    requires ParseValue(fc, s).Some?
    ensures Fits(ParseValue(fc, s).value.0)
    ensures 5 * Nodes(ParseValue(fc, s).value.0) <= |s| - |ParseValue(fc, s).value.1|
    decreases |s|, 0
  {
    if !IsStringCode(s[0]) {
      var rest := ReadCount(KMap, s).value.1;
      var (tag, payload) := ReadStr(rest).value;
      ParsedTagged(fc, tag, payload);
    }
  }

  lemma {:induction false} ParsedTagged(fc: Floats, tag: Octets, s: Octets)
    requires ParseTagged(fc, tag, s).Some?
    ensures Fits(ParseTagged(fc, tag, s).value.0)
    ensures |tag| >= 3
    ensures 5 * Nodes(ParseTagged(fc, tag, s).value.0) <= |s| - |ParseTagged(fc, tag, s).value.1| + 4
    decreases |s|, 3
  {
    if tag == STR {
      StrLength(s);
    } else if tag == BYTES {
      ParsedBytes(s);
    } else if tag == ARRAY {
      ParsedArray(fc, s);
    } else if tag == MAP {
      var (n, rest) := ParseArrayLength(s).value;
      CountsAreU32(s);
      ParsedEntries(fc, rest, n);
    }
  }

  lemma ParsedBytes(s: Octets)
    requires ParseBytes(s).Some?
    ensures |ParseBytes(s).value.0| < 0x1_0000_0000
  {
    CountsAreU32(s);
  }

  lemma {:induction false} ParsedArray(fc: Floats, s: Octets)
    requires ParseArray(fc, s).Some?
    ensures AllFit(ParseArray(fc, s).value.0)
    ensures 5 * NodesOfAll(ParseArray(fc, s).value.0) < |s| - |ParseArray(fc, s).value.1|
    decreases |s|, 2
  {
    var (n, rest) := ParseArrayLength(s).value;
    CountsAreU32(s);
    ParsedValues(fc, rest, n);
  }

  lemma {:induction false} ParsedValues(fc: Floats, s: Octets, n: nat)
    requires ParseValues(fc, s, n).Some?
    ensures forall v | v in ParseValues(fc, s, n).value.0 :: Fits(v)
    ensures 5 * NodesOfAll(ParseValues(fc, s, n).value.0) <= |s| - |ParseValues(fc, s, n).value.1|
    decreases |s|, 1
  {
    hide ParseValue, Fits, Nodes;
    if n > 0 {
      ParsedValue(fc, s);
      var (v, rest) := ParseValue(fc, s).value;
      ParsedValues(fc, rest, n - 1);
      var (vs, rest') := ParseValues(fc, rest, n - 1).value;
      assert ParseValues(fc, s, n) == Some(([v] + vs, rest'));
      CountCons(v, vs);
    }
  }

  lemma CountCons(v: Value, vs: seq<Value>)
    ensures NodesOfAll([v] + vs) == Nodes(v) + NodesOfAll(vs)
    ensures forall x | x in [v] + vs :: x == v || x in vs
  {
    assert ([v] + vs)[1..] == vs;
  }

  lemma {:induction false} ParsedEntry(fc: Floats, s: Octets)
    requires ParseEntry(fc, s).Some?
    ensures var e := ParseEntry(fc, s).value.0; Fits(e.key) && Fits(e.val)
    ensures 5 * NodesOfEntry(ParseEntry(fc, s).value.0) < |s| - |ParseEntry(fc, s).value.1|
    decreases |s|, 1
  {
    var rest := ParseArrayLength(s).value.1;
    ParsedValue(fc, rest);
    ParsedValue(fc, ParseValue(fc, rest).value.1);
  }

  lemma {:induction false} ParsedEntries(fc: Floats, s: Octets, n: nat)
    requires ParseEntries(fc, s, n).Some?
    ensures forall e | e in ParseEntries(fc, s, n).value.0 :: Fits(e.key) && Fits(e.val)
    ensures 5 * NodesOfEntries(ParseEntries(fc, s, n).value.0) <= |s| - |ParseEntries(fc, s, n).value.1|
    decreases |s|, 2
  {
    if n > 0 {
      ParsedEntry(fc, s);
      var (e, rest) := ParseEntry(fc, s).value;
      ParsedEntries(fc, rest, n - 1);
      var (es, rest') := ParseEntries(fc, rest, n - 1).value;
      assert ParseEntries(fc, s, n) == Some(([e] + es, rest'));
      assert ([e] + es)[1..] == es;
    }
  }

  ghost predicate PartialFits(got: Partial) {
    && (got.command.Some? ==> |got.command.value| < 0x1_0000_0000)
    && (got.args.Some? ==> AllFit(got.args.value))
  }

  lemma ParsedField(fc: Floats, s: Octets, got: Partial)
    requires ParseField(fc, s, got).Some? && PartialFits(got)
    ensures PartialFits(ParseField(fc, s, got).value.0)
  {
    var (key, payload) := ReadStr(s).value;
    if key == COMMAND { StrLength(payload); }
    else if key == ARGS && key != ID { ParsedArray(fc, payload); }
  }

  lemma {:induction false} ParsedFields(fc: Floats, s: Octets, n: nat, got: Partial)
    requires ParseFields(fc, s, n, got).Some? && PartialFits(got)
    ensures PartialFits(ParseFields(fc, s, n, got).value.0)
    decreases n
  {
    hide PartialFits, ParseField;
    if n > 0 {
      var (got', rest) := ParseField(fc, s, got).value;
      ParsedField(fc, s, got);
      ParsedFields(fc, rest, n - 1, got');
      assert ParseFields(fc, s, n, got) == ParseFields(fc, rest, n - 1, got');
    }
  }

  lemma ParsedRequest(fc: Floats, s: Octets)
    requires ParseRequest(fc, s).Some?
    ensures RequestFits(ParseRequest(fc, s).value.0)
  {
    if IsArrayCode(s[0]) {
      var (id, rest) := ParseFrameId(ReadCount(KArray, s).value.1).value;
      StrLength(rest);
      ParsedArray(fc, ReadStr(rest).value.1);
    } else {
      var (n, rest) := ReadCount(KMap, s).value;
      ParsedFields(fc, rest, n, NOTHING);
    }
  }

  lemma ParsedResponse(fc: Floats, s: Octets)
    requires ParseResponse(fc, s).Some?
    ensures ResponseFits(ParseResponse(fc, s).value.0)
  {
    var result := ParseFrameId(ParseArrayLength(s).value.1).value.1;
    var (arm, payload) := ReadStr(ReadCount(KMap, result).value.1).value;
    if arm == OK { ParsedValue(fc, payload); } else { StrLength(payload); }
  }

  // --- canonicalisation: re-encoding any accepted input and decoding again changes nothing ---

  lemma RequestCanonicalises(fc: Floats, body: Octets)
    requires DecodeRequestBody(fc, body).Some?
    ensures var req := DecodeRequestBody(fc, body).value;
      DecodeRequestBody(fc, EncodeRequest(req)) == Some(req)
  {
    var req := DecodeRequestBody(fc, body).value;
    ParsedRequest(fc, body);
    ParseEncodedRequest(fc, req, []);
    assert EncodeRequest(req) + [] == EncodeRequest(req);
  }

  lemma ResponseCanonicalises(fc: Floats, body: Octets)
    requires DecodeResponseBody(fc, body).Some?
    ensures var resp := DecodeResponseBody(fc, body).value;
      DecodeResponseBody(fc, EncodeResponse(resp)) == Some(resp)
  {
    var resp := DecodeResponseBody(fc, body).value;
    ParsedResponse(fc, body);
    ParseEncodedResponse(fc, resp, []);
    assert EncodeResponse(resp) + [] == EncodeResponse(resp);
  }

  /** The round trip holds exactly for the values whose lengths fit 32 bits:
      the decoder can never return any other. */
  lemma RoundTripIffFits(fc: Floats, v: Value, t: Octets)
    ensures ParseValue(fc, EncodeValue(v) + t) == Some((v, t)) <==> Fits(v)
  {
    if Fits(v) {
      ParseEncodedValue(fc, v, t);
    } else if ParseValue(fc, EncodeValue(v) + t) == Some((v, t)) {
      ParsedValue(fc, EncodeValue(v) + t);
    }
  }
}
