/**
 Whole MessagePack objects: a grammar of every well-formed object, in any
 format and any nesting, and the `Skip` operation the Request decoder uses to
 step over the payload of a key it does not know.
 */
module MsgPackObject {
  import opened Wrappers
  import opened MsgPack

  /** One object: a code with the number in its field, then a byte run, then
      nested objects (a map has its keys and values alternating). */
  datatype Obj = Obj(code: byte, num: nat, blob: Octets, kids: seq<Obj>)

  function BlobLength(h: Head): nat {
    match h
    case HSized(k, n) => if k == KStr || k == KBin then n else if k == KExt then n + 1 else 0
    case _ => 0
  }

  function KidCount(h: Head): nat {
    match h
    case HSized(k, n) => if k == KArray then n else if k == KMap then 2 * n else 0
    case _ => 0
  }

  ghost predicate WellFormed(o: Obj) {
    && LayoutOf(o.code) != Unused
    && o.num < Pow256(FieldWidth(o.code))
    && |o.blob| == BlobLength(HeadOf(o.code, o.num))
    && |o.kids| == KidCount(HeadOf(o.code, o.num))
    && forall k | k in o.kids :: WellFormed(k)
  }

  function Serialize(o: Obj): Octets {
    Coded(o.code, o.num) + o.blob + SerializeAll(o.kids)
  }

  function SerializeAll(os: seq<Obj>): Octets {
    if os == [] then [] else Serialize(os[0]) + SerializeAll(os[1..])
  }

  /** The bytes behind one object, or None when there is no whole object. */
  function Skip(s: Octets): (r: Option<Octets>)
    ensures r.Some? ==> |r.value| < |s|
    decreases |s|, 0
  {
    var (h, rest) :- ReadHead(s);
    if |rest| < BlobLength(h) then None else SkipMany(rest[BlobLength(h)..], KidCount(h))
  }

  function SkipMany(s: Octets, n: nat): (r: Option<Octets>)
    ensures r.Some? ==> |r.value| <= |s|
    decreases |s|, 1
  {
    if n == 0 then Some(s)
    else
      var rest :- Skip(s);
      SkipMany(rest, n - 1)
  }

  /** What an object takes behind its head: nothing, its bytes, a type byte and its bytes
      for an extension, or its items, which are twice its count for a map. */
  lemma SkipTakes(s: Octets)
    requires ReadHead(s).Some?
    ensures var (h, rest) := ReadHead(s).value;
      match h
      case HSized(KStr, n) => Skip(s) == (if |rest| < n then None else Some(rest[n..]))
      case HSized(KBin, n) => Skip(s) == (if |rest| < n then None else Some(rest[n..]))
      case HSized(KExt, n) => Skip(s) == (if |rest| < 1 + n then None else Some(rest[1 + n..]))
      case HSized(KArray, n) => Skip(s) == SkipMany(rest, n)
      case HSized(KMap, n) => Skip(s) == SkipMany(rest, n + n)
      case _ => Skip(s) == Some(rest)
  {
    hide ReadHead;
    assert ReadHead(s).value.1[0..] == ReadHead(s).value.1;
  }

  // --- Skip accepts exactly the well-formed objects, and leaves exactly what follows ---

  lemma {:induction false} SkipObject(o: Obj, t: Octets)
    requires WellFormed(o)
    ensures Skip(Serialize(o) + t) == Some(t)
    decreases o
  {
    var tail := SerializeAll(o.kids) + t;
    assert Serialize(o) + t == Coded(o.code, o.num) + (o.blob + tail);
    ReadCoded(o.code, o.num, o.blob + tail);
    assert (o.blob + tail)[|o.blob|..] == tail;
    SkipObjects(o.kids, t);
  }

  lemma {:induction false} SkipObjects(os: seq<Obj>, t: Octets)
    requires forall k | k in os :: WellFormed(k)
    ensures SkipMany(SerializeAll(os) + t, |os|) == Some(t)
    decreases os
  {
    if os == [] {
      assert SerializeAll(os) + t == t;
    } else {
      assert SerializeAll(os) + t == Serialize(os[0]) + (SerializeAll(os[1..]) + t);
      SkipObject(os[0], SerializeAll(os[1..]) + t);
      SkipObjects(os[1..], t);
    }
  }

  lemma {:induction false} BEOfFromBE(s: Octets)
    ensures BE(FromBE(s), |s|) == s
  {
    if s != [] {
      BEOfFromBE(s[..|s| - 1]);
    }
  }

  /** The bytes of a head determine, and are determined by, its code and number. */
  lemma HeadIsCoded(s: Octets) returns (n: nat)
    requires ReadHead(s).Some?
    ensures n < Pow256(FieldWidth(s[0])) && ReadHead(s).value.0 == HeadOf(s[0], n)
    ensures s == Coded(s[0], n) + ReadHead(s).value.1
  {
    var field := s[1..1 + FieldWidth(s[0])];
    BEOfFromBE(field);
    FromBEBounds(field);
    n := FromBE(field);
  }

  /** A head, a byte run and nested objects of the announced sizes make one object. */
  lemma Assembled(c: byte, n: nat, blob: Octets, kids: seq<Obj>, t: Octets)
    requires LayoutOf(c) != Unused && n < Pow256(FieldWidth(c))
    requires |blob| == BlobLength(HeadOf(c, n)) && |kids| == KidCount(HeadOf(c, n))
    requires forall k | k in kids :: WellFormed(k)
    ensures WellFormed(Obj(c, n, blob, kids))
    ensures Serialize(Obj(c, n, blob, kids)) + t == Coded(c, n) + (blob + (SerializeAll(kids) + t))
  {
    hide LayoutOf, SerializeAll, Coded, FieldWidth, HeadOf, BlobLength, KidCount, Pow256;
    Regroup(Coded(c, n), blob, SerializeAll(kids), t);
  }

  lemma Regroup(a: Octets, b: Octets, c: Octets, t: Octets)
    ensures a + b + c + t == a + (b + (c + t))
  {
  }

  lemma {:induction false} SkippedIsObject(s: Octets) returns (o: Obj)
    requires Skip(s).Some?
    ensures WellFormed(o) && s == Serialize(o) + Skip(s).value
    decreases |s|, 0
  {
    hide WellFormed, Serialize, SerializeAll, LayoutOf, FieldWidth, HeadOf, Coded, BlobLength, KidCount;
    var (h, rest) := ReadHead(s).value;
    var n := HeadIsCoded(s);
    var blob, tail := rest[..BlobLength(h)], rest[BlobLength(h)..];
    var kids := SkippedAreObjects(tail, KidCount(h));
    assert rest == blob + tail;
    Assembled(s[0], n, blob, kids, Skip(s).value);
    o := Obj(s[0], n, blob, kids);
  }

  lemma {:induction false} SkippedAreObjects(s: Octets, n: nat) returns (os: seq<Obj>)
    requires SkipMany(s, n).Some?
    ensures |os| == n && (forall k | k in os :: WellFormed(k))
    ensures s == SerializeAll(os) + SkipMany(s, n).value
    decreases |s|, 1
  {
    hide WellFormed, Serialize, Skip;
    if n == 0 {
      os := [];
    } else {
      var first := SkippedIsObject(s);
      var others := SkippedAreObjects(Skip(s).value, n - 1);
      os := [first] + others;
      assert os[1..] == others;
      Append(Serialize(first), SerializeAll(others), SkipMany(s, n).value);
    }
  }

  /** Skip is the recogniser of the grammar. */
  lemma SkipIffWellFormed(s: Octets, t: Octets)
    ensures Skip(s) == Some(t) <==> exists o :: WellFormed(o) && s == Serialize(o) + t
  {
    if Skip(s) == Some(t) {
      var o := SkippedIsObject(s);
    }
    forall o | WellFormed(o) && s == Serialize(o) + t ensures Skip(s) == Some(t) {
      SkipObject(o, t);
    }
  }

  // --- an input has at most one reading as an object ---

  lemma {:induction false} OneReading(o: Obj, p: Obj, t: Octets, u: Octets)
    requires WellFormed(o) && WellFormed(p) && Serialize(o) + t == Serialize(p) + u
    ensures o == p && t == u
    decreases o
  {
    hide LayoutOf, SerializeAll, Serialize, Coded, FieldWidth, Pow256, HeadOf, BlobLength, KidCount;
    var x, y := SerializeAll(o.kids) + t, SerializeAll(p.kids) + u;
    Assembled(o.code, o.num, o.blob, o.kids, t);
    Assembled(p.code, p.num, p.blob, p.kids, u);
    CodeIsFirst(o.code, o.num, o.blob + x);
    CodeIsFirst(p.code, p.num, p.blob + y);
    SameNumber(o.code, o.num, p.num, o.blob + x, p.blob + y);
    SameBlob(o.blob, p.blob, x, y);
    OneReadingOfAll(o.kids, p.kids, t, u);
  }

  lemma CodeIsFirst(c: byte, n: nat, t: Octets)
    ensures Coded(c, n) + t != [] && (Coded(c, n) + t)[0] == c
  {
  }

  lemma SameBlob(a: Octets, b: Octets, x: Octets, y: Octets)
    requires a + x == b + y && |a| == |b|
    ensures a == b && x == y
  {
    assert (a + x)[..|a|] == a && (b + y)[..|b|] == b;
    assert (a + x)[|a|..] == x && (b + y)[|b|..] == y;
  }

  lemma SameNumber(c: byte, m: nat, n: nat, t: Octets, u: Octets)
    requires LayoutOf(c) != Unused && m < Pow256(FieldWidth(c)) && n < Pow256(FieldWidth(c))
    requires Coded(c, m) + t == Coded(c, n) + u
    ensures m == n && t == u
  {
    hide Serialize, WellFormed;
    var w := FieldWidth(c);
    assert BE(m, w) == (Coded(c, m) + t)[1..1 + w] && BE(n, w) == (Coded(c, n) + u)[1..1 + w];
    assert t == (Coded(c, m) + t)[1 + w..] && u == (Coded(c, n) + u)[1 + w..];
    FromBEOfBE(m, w);
    FromBEOfBE(n, w);
  }

  lemma {:induction false} OneReadingOfAll(os: seq<Obj>, ps: seq<Obj>, t: Octets, u: Octets)
    requires |os| == |ps| && SerializeAll(os) + t == SerializeAll(ps) + u
    requires (forall k | k in os :: WellFormed(k)) && (forall k | k in ps :: WellFormed(k))
    ensures os == ps && t == u
    decreases os
  {
    hide Serialize, WellFormed;
    if os == [] {
      assert SerializeAll(os) + t == t && SerializeAll(ps) + u == u;
    } else {
      Append(Serialize(os[0]), SerializeAll(os[1..]), t);
      Append(Serialize(ps[0]), SerializeAll(ps[1..]), u);
      OneReading(os[0], ps[0], SerializeAll(os[1..]) + t, SerializeAll(ps[1..]) + u);
      OneReadingOfAll(os[1..], ps[1..], t, u);
      assert os == [os[0]] + os[1..] && ps == [ps[0]] + ps[1..];
    }
  }
}
