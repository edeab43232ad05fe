/**
 MessagePack at byte level, from the "Formats" section of the MessagePack
 specification: which first bytes ("codes") exist, how many bytes of fixed-width
 field follow each of them, and what the two together announce (the "head" of
 an object). The writers always choose the shortest format of a family, as the
 encoder of wire/codec.go asks for; the readers accept every format.
 */
module MsgPack {
  import opened Wrappers

  type byte = x: int | 0 <= x < 0x100
  type Octets = seq<byte>
  type u32 = x: int | 0 <= x < 0x1_0000_0000
  type u64 = x: int | 0 <= x < 0x1_0000_0000_0000_0000
  type int64 = x: int | -0x8000_0000_0000_0000 <= x < 0x8000_0000_0000_0000

  /** The bytes of an ASCII text. */
  predicate Spells(o: Octets, text: string) { |o| == |text| && forall i | 0 <= i < |o| :: o[i] == text[i] as int }

  lemma Append(a: Octets, b: Octets, c: Octets)
    ensures a + b + c == a + (b + c)
  {
  }

  // --- big-endian fields ---

  function Pow256(w: nat): (p: nat)
    ensures p > 0
  {
    if w == 0 then 1 else 256 * Pow256(w - 1)
  }

  /** The low `w` bytes of n, most significant first: wider numbers are truncated. */
  function BE(n: nat, w: nat): (s: Octets)
    ensures |s| == w
  {
    if w == 0 then [] else BE(n / 256, w - 1) + [n % 256]
  }

  function FromBE(s: Octets): nat {
    if s == [] then 0 else FromBE(s[..|s| - 1]) * 256 + s[|s| - 1]
  }

  lemma {:induction false} FromBEOfBE(n: nat, w: nat)
    requires n < Pow256(w)
    ensures FromBE(BE(n, w)) == n
  {
    if w > 0 {
      FromBEOfBE(n / 256, w - 1);
      assert BE(n, w)[..w - 1] == BE(n / 256, w - 1);
    }
  }

  lemma {:induction false} FromBEBounds(s: Octets)
    ensures FromBE(s) < Pow256(|s|)
  {
    if s != [] {
      FromBEBounds(s[..|s| - 1]);
    }
  }

  lemma Pow256Values()
    ensures Pow256(1) == 0x100 && Pow256(2) == 0x1_0000
    ensures Pow256(4) == 0x1_0000_0000 && Pow256(8) == 0x1_0000_0000_0000_0000
  {
    assert Pow256(3) == 256 * Pow256(2);
    assert Pow256(5) == 256 * Pow256(4);
    assert Pow256(6) == 256 * Pow256(5);
    assert Pow256(7) == 256 * Pow256(6);
  }

  // --- codes and heads ---

  datatype Kind = KStr | KBin | KArray | KMap | KExt

  /** What the code and its field announce. `Sized` counts bytes for Str, Bin and
      Ext (without the Ext type byte), items for Array, pairs for Map. */
  datatype Head =
    | HNil
    | HBool(b: bool)
    | HInt(n: int)
    | HFloat32(bits: nat)
    | HFloat64(bits64: nat)
    | HSized(kind: Kind, count: nat)

  datatype Layout =
    | Immediate(head: Head)
    | Unsigned(w: nat)
    | Signed(w: nat)
    | Floating(w: nat)
    | Counted(kind: Kind, w: nat)
    | Unused

  /** The format table. */
  function LayoutOf(c: byte): Layout {
    if c <= 0x7f then Immediate(HInt(c))
    else if c <= 0x8f then Immediate(HSized(KMap, c - 0x80))
    else if c <= 0x9f then Immediate(HSized(KArray, c - 0x90))
    else if c <= 0xbf then Immediate(HSized(KStr, c - 0xa0))
    else if c >= 0xe0 then Immediate(HInt(c - 0x100))
    else match c
      case 0xc0 => Immediate(HNil)
      case 0xc2 => Immediate(HBool(false))
      case 0xc3 => Immediate(HBool(true))
      case 0xc4 => Counted(KBin, 1)
      case 0xc5 => Counted(KBin, 2)
      case 0xc6 => Counted(KBin, 4)
      case 0xc7 => Counted(KExt, 1)
      case 0xc8 => Counted(KExt, 2)
      case 0xc9 => Counted(KExt, 4)
      case 0xca => Floating(4)
      case 0xcb => Floating(8)
      case 0xcc => Unsigned(1)
      case 0xcd => Unsigned(2)
      case 0xce => Unsigned(4)
      case 0xcf => Unsigned(8)
      case 0xd0 => Signed(1)
      case 0xd1 => Signed(2)
      case 0xd2 => Signed(4)
      case 0xd3 => Signed(8)
      case 0xd4 => Immediate(HSized(KExt, 1))
      case 0xd5 => Immediate(HSized(KExt, 2))
      case 0xd6 => Immediate(HSized(KExt, 4))
      case 0xd7 => Immediate(HSized(KExt, 8))
      case 0xd8 => Immediate(HSized(KExt, 16))
      case 0xd9 => Counted(KStr, 1)
      case 0xda => Counted(KStr, 2)
      case 0xdb => Counted(KStr, 4)
      case 0xdc => Counted(KArray, 2)
      case 0xdd => Counted(KArray, 4)
      case 0xde => Counted(KMap, 2)
      case 0xdf => Counted(KMap, 4)
      case _ => Unused
  }

  function FieldWidth(c: byte): nat {
    match LayoutOf(c)
    case Unsigned(w) => w
    case Signed(w) => w
    case Floating(w) => w
    case Counted(_, w) => w
    case _ => 0
  }

  function TwosComplement(n: nat, w: nat): int {
    if 2 * n < Pow256(w) then n else n - Pow256(w)
  }

  /** The head that code c announces when its field holds the number n. */
  function HeadOf(c: byte, n: nat): Head
    requires LayoutOf(c) != Unused
  {
    match LayoutOf(c)
    case Immediate(h) => h
    case Unsigned(w) => HInt(n)
    case Signed(w) => HInt(TwosComplement(n, w))
    case Floating(w) => if w == 4 then HFloat32(n) else HFloat64(n)
    case Counted(k, w) => HSized(k, n)
  }

  /** Reads one head; None when the input is too short or the code is unused. */
  function ReadHead(s: Octets): (r: Option<(Head, Octets)>)
    ensures r.Some? ==> |r.value.1| < |s| && s[|s| - |r.value.1|..] == r.value.1
  {
    if s == [] || LayoutOf(s[0]) == Unused || |s| - 1 < FieldWidth(s[0]) then None
    else
      var k := 1 + FieldWidth(s[0]);
      Some((HeadOf(s[0], FromBE(s[1..k])), s[k..]))
  }

  // --- writers (shortest format of each family) ---

  /** One code followed by its field. */
  function Coded(c: byte, n: nat): Octets { [c] + BE(n, FieldWidth(c)) }

  function WriteUint(u: u64): Octets {
    if u <= 0x7f then Coded(u, 0)
    else if u <= 0xff then Coded(0xcc, u)
    else if u <= 0xffff then Coded(0xcd, u)
    else if u <= 0xffff_ffff then Coded(0xce, u)
    else Coded(0xcf, u)
  }

  function WriteInt(i: int64): Octets {
    if i >= 0 then WriteUint(i)
    else if i >= -0x20 then Coded(0x100 + i, 0)
    else if i >= -0x80 then Coded(0xd0, 0x100 + i)
    else if i >= -0x8000 then Coded(0xd1, 0x1_0000 + i)
    else if i >= -0x8000_0000 then Coded(0xd2, 0x1_0000_0000 + i)
    else Coded(0xd3, 0x1_0000_0000_0000_0000 + i)
  }

  function WriteBool(b: bool): Octets { Coded(if b then 0xc3 else 0xc2, 0) }

  function WriteFloat64(bits: u64): Octets { Coded(0xcb, bits) }

  function CountCode(k: Kind, n: nat): byte
    requires k != KExt
  {
    match k
    case KStr => if n < 0x20 then 0xa0 + n else if n < 0x100 then 0xd9 else if n < 0x1_0000 then 0xda else 0xdb
    case KBin => if n < 0x100 then 0xc4 else if n < 0x1_0000 then 0xc5 else 0xc6
    case KArray => if n < 0x10 then 0x90 + n else if n < 0x1_0000 then 0xdc else 0xdd
    case KMap => if n < 0x10 then 0x80 + n else if n < 0x1_0000 then 0xde else 0xdf
  }

  /** Counts of 2^32 and more are truncated to their low 32 bits, as a Go uint32 conversion does. */
  function WriteCount(k: Kind, n: nat): Octets
    requires k != KExt
  {
    Coded(CountCode(k, n), if FieldWidth(CountCode(k, n)) == 0 then 0 else n)
  }

  function WriteStr(s: Octets): Octets { WriteCount(KStr, |s|) + s }

  function WriteBin(s: Octets): Octets { WriteCount(KBin, |s|) + s }

  // --- readers ---

  function ReadInt64(s: Octets): (r: Option<(int64, Octets)>)
    ensures r.Some? ==> |r.value.1| < |s|
  {
    var (h, rest) :- ReadHead(s);
    if h.HInt? && -0x8000_0000_0000_0000 <= h.n < 0x8000_0000_0000_0000
    then Some((h.n, rest)) else None
  }

  function ReadUint64(s: Octets): (r: Option<(u64, Octets)>)
    ensures r.Some? ==> |r.value.1| < |s|
  {
    var (h, rest) :- ReadHead(s);
    if h.HInt? && 0 <= h.n < 0x1_0000_0000_0000_0000 then Some((h.n, rest)) else None
  }

  function ReadBool(s: Octets): (r: Option<(bool, Octets)>)
    ensures r.Some? ==> |r.value.1| < |s|
  {
    var (h, rest) :- ReadHead(s);
    if h.HBool? then Some((h.b, rest)) else None
  }

  function ReadCount(k: Kind, s: Octets): (r: Option<(nat, Octets)>)
    ensures r.Some? ==> |r.value.1| < |s|
  {
    var (h, rest) :- ReadHead(s);
    if h.HSized? && h.kind == k then Some((h.count, rest)) else None
  }

  /** Reads a byte run of the given kind (a str or a bin). */
  function ReadBlob(k: Kind, s: Octets): (r: Option<(Octets, Octets)>)
    ensures r.Some? ==> |r.value.1| + |r.value.0| < |s|
  {
    var (n, rest) :- ReadCount(k, s);
    if n <= |rest| then Some((rest[..n], rest[n..])) else None
  }

  function ReadStr(s: Octets): (r: Option<(Octets, Octets)>)
    ensures r.Some? ==> |r.value.1| + |r.value.0| < |s|
  {
    ReadBlob(KStr, s)
  }

  function ReadBin(s: Octets): (r: Option<(Octets, Octets)>)
    ensures r.Some? ==> |r.value.1| + |r.value.0| < |s|
  {
    ReadBlob(KBin, s)
  }

  // --- what a writer wrote is what a reader reads, whatever follows ---

  lemma ReadCoded(c: byte, n: nat, t: Octets)
    requires LayoutOf(c) != Unused && n < Pow256(FieldWidth(c))
    ensures ReadHead(Coded(c, n) + t) == Some((HeadOf(c, n), t))
  {
    var s := Coded(c, n) + t;
    var k := 1 + FieldWidth(c);
    assert s[1..k] == BE(n, FieldWidth(c)) && s[k..] == t;
    FromBEOfBE(n, FieldWidth(c));
  }

  lemma ReadWriteUint(u: u64, t: Octets)
    ensures ReadHead(WriteUint(u) + t) == Some((HInt(u), t))
  {
    hide ReadHead;
    Pow256Values();
    ReadCoded(if u <= 0x7f then u else if u <= 0xff then 0xcc else if u <= 0xffff then 0xcd
              else if u <= 0xffff_ffff then 0xce else 0xcf, if u <= 0x7f then 0 else u, t);
  }

  lemma ReadSigned(c: byte, w: nat, i: int, t: Octets)
    requires LayoutOf(c) == Signed(w) && i < 0 && 2 * -i <= Pow256(w)
    ensures ReadHead(Coded(c, Pow256(w) + i) + t) == Some((HInt(i), t))
  {
    hide ReadHead, Coded, Pow256;
    ReadCoded(c, Pow256(w) + i, t);
  }

  lemma ReadWriteInt(i: int64, t: Octets)
    ensures ReadHead(WriteInt(i) + t) == Some((HInt(i), t))
  {
    hide ReadHead, TwosComplement;
    Pow256Values();
    if i >= 0 {
      ReadWriteUint(i, t);
      assert WriteInt(i) == WriteUint(i);
    } else if i >= -0x20 {
      ReadCoded(0x100 + i, 0, t);
    } else if i >= -0x80 {
      ReadSigned(0xd0, 1, i, t);
    } else if i >= -0x8000 {
      ReadSigned(0xd1, 2, i, t);
    } else if i >= -0x8000_0000 {
      ReadSigned(0xd2, 4, i, t);
    } else {
      ReadSigned(0xd3, 8, i, t);
    }
  }

  lemma CountCodeFits(k: Kind, n: u32)
    requires k != KExt
    ensures var c := CountCode(k, n);
      || (LayoutOf(c) == Immediate(HSized(k, n)) && FieldWidth(c) == 0)
      || (LayoutOf(c) == Counted(k, FieldWidth(c)) && n < Pow256(FieldWidth(c)) && FieldWidth(c) > 0)
  {
    Pow256Values();
  }

  lemma ReadWriteCount(k: Kind, n: u32, t: Octets)
    requires k != KExt
    ensures ReadHead(WriteCount(k, n) + t) == Some((HSized(k, n), t))
  {
    hide ReadHead, Coded, CountCode;
    CountCodeFits(k, n);
    var c := CountCode(k, n);
    ReadCoded(c, if FieldWidth(c) == 0 then 0 else n, t);
  }

  lemma ReadWriteBlob(k: Kind, b: Octets, t: Octets)
    requires k == KStr || k == KBin
    requires |b| < 0x1_0000_0000
    ensures ReadBlob(k, WriteCount(k, |b|) + b + t) == Some((b, t))
  {
    ReadWriteCount(k, |b|, b + t);
    assert WriteCount(k, |b|) + b + t == WriteCount(k, |b|) + (b + t);
    assert (b + t)[..|b|] == b && (b + t)[|b|..] == t;
  }

  lemma ReadWriteFloat64(bits: u64, t: Octets)
    ensures ReadHead(WriteFloat64(bits) + t) == Some((HFloat64(bits), t))
  {
    Pow256Values();
    ReadCoded(0xcb, bits, t);
  }

  lemma ReadWriteBool(b: bool, t: Octets)
    ensures ReadHead(WriteBool(b) + t) == Some((HBool(b), t))
  {
    ReadCoded(if b then 0xc3 else 0xc2, 0, t);
  }

  // --- reading looks at nothing behind the head ---

  lemma ReadHeadExtends(s: Octets, t: Octets)
    requires ReadHead(s).Some?
    ensures ReadHead(s + t) == Some((ReadHead(s).value.0, ReadHead(s).value.1 + t))
  {
    var k := 1 + FieldWidth(s[0]);
    assert (s + t)[1..k] == s[1..k];
    assert (s + t)[k..] == s[k..] + t;
  }

  lemma ReadHeadShrinks(s: Octets, t: Octets)
    requires ReadHead(s + t).Some? && |ReadHead(s + t).value.1| >= |t|
    ensures ReadHead(s).Some? && ReadHead(s + t) == Some((ReadHead(s).value.0, ReadHead(s).value.1 + t))
  {
    var k := 1 + FieldWidth((s + t)[0]);
    assert |(s + t)[k..]| >= |t|;
    assert (s + t)[1..k] == s[1..k];
    assert (s + t)[k..] == s[k..] + t;
  }

  // --- shortest integers ---

  /** What a code with a w-byte field can denote. */
  lemma IntRange(c: byte, n: nat)
    requires LayoutOf(c) != Unused && n < Pow256(FieldWidth(c)) && HeadOf(c, n).HInt?
    ensures var i, w := HeadOf(c, n).n, FieldWidth(c);
      || (w == 0 && -0x20 <= i <= 0x7f)
      || (w == 1 && -0x80 <= i <= 0xff)
      || (w == 2 && -0x8000 <= i <= 0xffff)
      || (w == 4 && -0x8000_0000 <= i <= 0xffff_ffff)
      || w == 8
  {
    Pow256Values();
  }

  /** The length WriteInt needs is a matter of range alone. */
  lemma WriteIntLength(i: int64)
    ensures |WriteInt(i)| ==
      if -0x20 <= i <= 0x7f then 1 else if -0x80 <= i <= 0xff then 2
      else if -0x8000 <= i <= 0xffff then 3 else if -0x8000_0000 <= i <= 0xffff_ffff then 5 else 9
  {
  }

  /** The number a head denotes bounds the bytes the head takes. */
  lemma HeadOfIntRange(s: Octets)
    requires ReadHead(s).Some? && ReadHead(s).value.0.HInt?
    ensures var i, k := ReadHead(s).value.0.n, |s| - |ReadHead(s).value.1|;
      || (k == 1 && -0x20 <= i <= 0x7f)
      || (k == 2 && -0x80 <= i <= 0xff)
      || (k == 3 && -0x8000 <= i <= 0xffff)
      || (k == 5 && -0x8000_0000 <= i <= 0xffff_ffff)
      || k == 9
  {
    var field := s[1..1 + FieldWidth(s[0])];
    FromBEBounds(field);
    IntRange(s[0], FromBE(field));
    assert |s| - |ReadHead(s).value.1| == 1 + |field|;
  }

  /** No int-family encoding of i that any reader accepts is shorter than what WriteInt emits. */
  lemma WriteIntIsShortest(i: int64, s: Octets)
    requires ReadHead(s).Some? && ReadHead(s).value.0 == HInt(i)
    ensures |WriteInt(i)| <= |s| - |ReadHead(s).value.1|
  {
    HeadOfIntRange(s);
    WriteIntLength(i);
  }

  lemma WriteUintIsShortest(u: u64, s: Octets)
    requires ReadHead(s).Some? && ReadHead(s).value.0 == HInt(u)
    ensures |WriteUint(u)| <= |s| - |ReadHead(s).value.1|
  {
    HeadOfIntRange(s);
  }

  /** Every count a head announces fits 32 bits. */
  lemma CountsAreU32(s: Octets)
    requires ReadHead(s).Some? && ReadHead(s).value.0.HSized?
    ensures ReadHead(s).value.0.count < 0x1_0000_0000
  {
    Pow256Values();
    FromBEBounds(s[1..1 + FieldWidth(s[0])]);
  }

  lemma FloatBitsFit(s: Octets)
    ensures ReadHead(s).Some? && ReadHead(s).value.0.HFloat64? ==> ReadHead(s).value.0.bits64 < 0x1_0000_0000_0000_0000
    ensures ReadHead(s).Some? && ReadHead(s).value.0.HFloat32? ==> ReadHead(s).value.0.bits < 0x1_0000_0000
  {
    if ReadHead(s).Some? {
      Pow256Values();
      FromBEBounds(s[1..1 + FieldWidth(s[0])]);
    }
  }
}
