/** The eight-variant wire value (wire/value.go) and the two frame bodies built from it. */
module Values {
  import opened Wrappers
  import opened MsgPack

  /** The reserved frame id of server-initiated push frames. */
  const PUSH_ID: u32 := 0xFFFF_FFFF

  /** Strings are byte sequences and floats are 64-bit patterns. A Map is an
      ordered pair list whose keys may be any value, duplicates included. */
  datatype Value =
    | Null
    | Bool(b: bool)
    | Int(i: int64)
    | Float(bits: u64)
    | Bytes(data: Octets)
    | Str(s: Octets)
    | Array(items: seq<Value>)
    | Map(pairs: seq<Entry>)

  datatype Entry = Entry(key: Value, val: Value)

  datatype Request = Request(id: u32, command: Octets, args: seq<Value>)

  datatype Response =
    | ResponseOk(id: u32, ok: Value)
    | ResponseErr(id: u32, err: Octets)

  /** Structural equality as the source computes it, floats compared by bit pattern. */
  predicate Equal(v: Value, o: Value) {
    match (v, o)
    case (Null, Null) => true
    case (Bool(a), Bool(b)) => a == b
    case (Int(a), Int(b)) => a == b
    case (Float(a), Float(b)) => a == b
    case (Str(a), Str(b)) => a == b
    case (Bytes(a), Bytes(b)) =>
      |a| == |b| && forall i | 0 <= i < |a| :: a[i] == b[i]
    case (Array(a), Array(b)) =>
      |a| == |b| && forall i | 0 <= i < |a| :: Equal(a[i], b[i])
    case (Map(a), Map(b)) =>
      |a| == |b| && forall i | 0 <= i < |a| :: Equal(a[i].key, b[i].key) && Equal(a[i].val, b[i].val)
    case _ => false
  }

  lemma {:induction false} EqualIsIdentity(v: Value, o: Value)
    ensures Equal(v, o) <==> v == o
  {
    match (v, o) {
      case (Array(a), Array(b)) =>
        forall i | 0 <= i < |a| && |a| == |b| ensures Equal(a[i], b[i]) <==> a[i] == b[i] {
          EqualIsIdentity(a[i], b[i]);
        }
      case (Map(a), Map(b)) =>
        forall i | 0 <= i < |a| && |a| == |b|
          ensures Equal(a[i].key, b[i].key) && Equal(a[i].val, b[i].val) <==> a[i] == b[i]
        {
          EqualIsIdentity(a[i].key, b[i].key);
          EqualIsIdentity(a[i].val, b[i].val);
        }
      case _ =>
    }
  }

  lemma EqualIsEquivalence(u: Value, v: Value, w: Value)
    ensures Equal(v, v)
    ensures Equal(v, w) ==> Equal(w, v)
    ensures Equal(u, v) && Equal(v, w) ==> Equal(u, w)
  {
    EqualIsIdentity(v, v);
    EqualIsIdentity(v, w);
    EqualIsIdentity(w, v);
    EqualIsIdentity(u, v);
    EqualIsIdentity(u, w);
  }

  /** The value of the first pair whose key is the string `key`. */
  function MapGet(v: Value, key: Octets): Option<Value> {
    if v.Map? then Lookup(v.pairs, key) else None
  }

  function Lookup(pairs: seq<Entry>, key: Octets): Option<Value> {
    if pairs == [] then None
    else if pairs[0].key == Str(key) then Some(pairs[0].val)
    else Lookup(pairs[1..], key)
  }

  /** The first match wins; no match means the key is nowhere in the list. */
  lemma {:induction false} LookupIsFirstMatch(pairs: seq<Entry>, key: Octets)
    ensures Lookup(pairs, key).None? <==> forall e | e in pairs :: e.key != Str(key)
    ensures Lookup(pairs, key).Some? ==>
      exists i :: 0 <= i < |pairs| && pairs[i] == Entry(Str(key), Lookup(pairs, key).value)
        && forall j | 0 <= j < i :: pairs[j].key != Str(key)
  {
    if pairs != [] && pairs[0].key != Str(key) {
      LookupIsFirstMatch(pairs[1..], key);
      if Lookup(pairs, key).Some? {
        var i :| 0 <= i < |pairs[1..]| && pairs[1..][i] == Entry(Str(key), Lookup(pairs, key).value)
          && forall j | 0 <= j < i :: pairs[1..][j].key != Str(key);
        assert pairs[i + 1] == Entry(Str(key), Lookup(pairs, key).value);
        forall j | 0 <= j < i + 1 ensures pairs[j].key != Str(key) {
          assert j == 0 || pairs[j] == pairs[1..][j - 1];
        }
      }
    }
  }

  // --- sizes ---

  /** Every length in the value fits the 32-bit counts of the wire format. */
  ghost predicate Fits(v: Value) {
    match v
    case Bytes(d) => |d| < 0x1_0000_0000
    case Str(s) => |s| < 0x1_0000_0000
    case Array(vs) => |vs| < 0x1_0000_0000 && forall x | x in vs :: Fits(x)
    case Map(es) => |es| < 0x1_0000_0000 && forall e | e in es :: Fits(e.key) && Fits(e.val)
    case _ => true
  }

  ghost predicate AllFit(vs: seq<Value>) {
    |vs| < 0x1_0000_0000 && forall v | v in vs :: Fits(v)
  }

  ghost predicate RequestFits(r: Request) {
    |r.command| < 0x1_0000_0000 && AllFit(r.args)
  }

  ghost predicate ResponseFits(r: Response) {
    match r
    case ResponseOk(_, v) => Fits(v)
    case ResponseErr(_, m) => |m| < 0x1_0000_0000
  }

  /** The number of values in the tree, the root included. */
  function Nodes(v: Value): nat
    decreases v
  {
    match v
    case Array(vs) => 1 + NodesOfAll(vs)
    case Map(es) => 1 + NodesOfEntries(es)
    case _ => 1
  }

  function NodesOfAll(vs: seq<Value>): nat
    decreases vs
  {
    if vs == [] then 0 else Nodes(vs[0]) + NodesOfAll(vs[1..])
  }

  function NodesOfEntry(e: Entry): nat
    decreases e
  {
    Nodes(e.key) + Nodes(e.val)
  }

  function NodesOfEntries(es: seq<Entry>): nat
    decreases es
  {
    if es == [] then 0 else NodesOfEntry(es[0]) + NodesOfEntries(es[1..])
  }
}
