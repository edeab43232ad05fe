/**
 The "Formats" section of the MessagePack specification, byte by byte: what every
 first byte announces, and how the bytes behind it make its number.
 */
module MsgPackFormats {
  import opened Wrappers
  import opened MsgPack

  /** The formats that hold their number or length in the first byte. */
  lemma FixFormats(c: byte, t: Octets)
    ensures c <= 0x7f ==> ReadHead([c] + t) == Some((HInt(c), t))
    ensures 0x80 <= c <= 0x8f ==> ReadHead([c] + t) == Some((HSized(KMap, c - 0x80), t))
    ensures 0x90 <= c <= 0x9f ==> ReadHead([c] + t) == Some((HSized(KArray, c - 0x90), t))
    ensures 0xa0 <= c <= 0xbf ==> ReadHead([c] + t) == Some((HSized(KStr, c - 0xa0), t))
    ensures c >= 0xe0 ==> ReadHead([c] + t) == Some((HInt(c - 256), t))
  {
    hide ReadHead;
    if LayoutOf(c).Immediate? { BareCode(c, t); }
  }

  /** nil, booleans, the extensions of fixed length, and the one byte that is no format. */
  lemma LoneFormats(t: Octets)
    ensures ReadHead([0xc0] + t) == Some((HNil, t)) && ReadHead([0xc1] + t) == None
    ensures ReadHead([0xc2] + t) == Some((HBool(false), t)) && ReadHead([0xc3] + t) == Some((HBool(true), t))
    ensures ReadHead([0xd4] + t) == Some((HSized(KExt, 1), t)) && ReadHead([0xd5] + t) == Some((HSized(KExt, 2), t))
    ensures ReadHead([0xd6] + t) == Some((HSized(KExt, 4), t)) && ReadHead([0xd7] + t) == Some((HSized(KExt, 8), t))
    ensures ReadHead([0xd8] + t) == Some((HSized(KExt, 16), t))
  {
    NoFormat(t);
    hide ReadHead;
    BareCode(0xc0, t);
    BareCode(0xc2, t);
    BareCode(0xc3, t);
    BareCode(0xd4, t);
    BareCode(0xd5, t);
    BareCode(0xd6, t);
    BareCode(0xd7, t);
    BareCode(0xd8, t);
  }

  lemma NoFormat(t: Octets)
    ensures ReadHead([0xc1] + t) == None
  {
  }

  lemma BareCode(c: byte, t: Octets)
    requires LayoutOf(c).Immediate?
    ensures ReadHead([c] + t) == Some((LayoutOf(c).head, t))
  {
    hide LayoutOf;
    assert ([c] + t)[1..] == t;
  }

  /** A code and its field. */
  lemma HeadOfField(c: byte, field: Octets, t: Octets)
    requires |field| == FieldWidth(c)
    ensures ReadHead([c] + field + t)
      == if LayoutOf(c) == Unused then None else Some((HeadOf(c, FromBE(field)), t))
  {
    hide HeadOf, FromBE, LayoutOf;
    var s := [c] + field + t;
    assert s[1..1 + |field|] == field && s[1 + |field|..] == t;
  }

  // --- fields of one, two, four and eight bytes, most significant first ---

  lemma FormatsOfOne(a: byte, t: Octets)
    ensures ReadHead([0xcc, a] + t) == Some((HInt(a), t))
    ensures ReadHead([0xd0, a] + t) == Some((HInt(if a < 0x80 then a else a - 0x100), t))
    ensures ReadHead([0xd9, a] + t) == Some((HSized(KStr, a), t))
    ensures ReadHead([0xc4, a] + t) == Some((HSized(KBin, a), t))
    ensures ReadHead([0xc7, a] + t) == Some((HSized(KExt, a), t))
  {
    hide ReadHead;
    Pow256Values();
    FieldOfOne(a);
    CodeAndField(0xcc, [a], t);
    CodeAndField(0xd0, [a], t);
    CodeAndField(0xd9, [a], t);
    CodeAndField(0xc4, [a], t);
    CodeAndField(0xc7, [a], t);
    assert [0xcc, a] == [0xcc] + [a] && [0xd0, a] == [0xd0] + [a] && [0xd9, a] == [0xd9] + [a];
    assert [0xc4, a] == [0xc4] + [a] && [0xc7, a] == [0xc7] + [a];
  }

  lemma CodeAndField(c: byte, field: Octets, t: Octets)
    requires |field| == FieldWidth(c) && LayoutOf(c) != Unused
    ensures ReadHead([c] + field + t) == Some((HeadOf(c, FromBE(field)), t))
  {
    hide ReadHead, FromBE, LayoutOf;
    HeadOfField(c, field, t);
  }

  lemma FieldOfOne(a: byte)
    ensures FromBE([a]) == a
  {
    assert [a][..0] == [];
  }

  lemma FieldOfTwo(a: byte, b: byte)
    ensures FromBE([a, b]) == 0x100 * a + b
  {
    hide FromBE;
    FieldOfOne(a);
    FieldGrows([a], b);
    assert [a] + [b] == [a, b];
  }

  lemma FieldGrows(s: Octets, a: byte)
    ensures FromBE(s + [a]) == 0x100 * FromBE(s) + a
  {
    assert (s + [a])[..|s|] == s;
  }

  lemma FieldOfFour(a: byte, b: byte, c: byte, d: byte)
    ensures FromBE([a, b, c, d]) == 0x100_0000 * a + 0x1_0000 * b + 0x100 * c + d
  {
    hide FromBE;
    FieldOfTwo(a, b);
    FieldGrows([a, b], c);
    FieldGrows([a, b, c], d);
    assert [a, b] + [c] == [a, b, c] && [a, b, c] + [d] == [a, b, c, d];
  }

  lemma FieldOfEight(a: byte, b: byte, c: byte, d: byte, e: byte, f: byte, g: byte, h: byte)
    ensures FromBE([a, b, c, d, e, f, g, h])
      == 0x1_0000_0000 * (0x100_0000 * a + 0x1_0000 * b + 0x100 * c + d) + (0x100_0000 * e + 0x1_0000 * f + 0x100 * g + h)
  {
    hide FromBE;
    FieldOfFour(a, b, c, d);
    var s := [a, b, c, d];
    FieldGrows(s, e);
    FieldGrows(s + [e], f);
    FieldGrows(s + [e] + [f], g);
    FieldGrows(s + [e] + [f] + [g], h);
    assert s + [e] + [f] + [g] + [h] == [a, b, c, d, e, f, g, h];
  }

  lemma FormatsOfTwo(a: byte, b: byte, n: nat, t: Octets)
    requires n == 0x100 * a + b
    ensures ReadHead([0xcd, a, b] + t) == Some((HInt(n), t))
    ensures ReadHead([0xd1, a, b] + t) == Some((HInt(if n < 0x8000 then n else n - 0x1_0000), t))
    ensures ReadHead([0xda, a, b] + t) == Some((HSized(KStr, n), t))
    ensures ReadHead([0xc5, a, b] + t) == Some((HSized(KBin, n), t))
    ensures ReadHead([0xdc, a, b] + t) == Some((HSized(KArray, n), t))
    ensures ReadHead([0xde, a, b] + t) == Some((HSized(KMap, n), t))
    ensures ReadHead([0xc8, a, b] + t) == Some((HSized(KExt, n), t))
  {
    hide ReadHead, FromBE, Pow256;
    Pow256Values();
    FieldOfTwo(a, b);
    var field := [a, b];
    CodeAndField(0xcd, field, t);
    CodeAndField(0xd1, field, t);
    CodeAndField(0xda, field, t);
    CodeAndField(0xc5, field, t);
    CodeAndField(0xdc, field, t);
    CodeAndField(0xde, field, t);
    CodeAndField(0xc8, field, t);
    assert forall c: byte :: [c] + field == [c, a, b];
  }

  lemma FormatsOfFour(a: byte, b: byte, c: byte, d: byte, n: nat, t: Octets)
    requires n == 0x100_0000 * a + 0x1_0000 * b + 0x100 * c + d
    ensures ReadHead([0xce, a, b, c, d] + t) == Some((HInt(n), t))
    ensures ReadHead([0xd2, a, b, c, d] + t) == Some((HInt(if n < 0x8000_0000 then n else n - 0x1_0000_0000), t))
    ensures ReadHead([0xca, a, b, c, d] + t) == Some((HFloat32(n), t))
    ensures ReadHead([0xdb, a, b, c, d] + t) == Some((HSized(KStr, n), t))
    ensures ReadHead([0xc6, a, b, c, d] + t) == Some((HSized(KBin, n), t))
    ensures ReadHead([0xdd, a, b, c, d] + t) == Some((HSized(KArray, n), t))
    ensures ReadHead([0xdf, a, b, c, d] + t) == Some((HSized(KMap, n), t))
    ensures ReadHead([0xc9, a, b, c, d] + t) == Some((HSized(KExt, n), t))
  {
    hide ReadHead, FromBE, Pow256;
    Pow256Values();
    FieldOfFour(a, b, c, d);
    var field := [a, b, c, d];
    CodeAndField(0xce, field, t);
    CodeAndField(0xd2, field, t);
    CodeAndField(0xca, field, t);
    CodeAndField(0xdb, field, t);
    CodeAndField(0xc6, field, t);
    CodeAndField(0xdd, field, t);
    CodeAndField(0xdf, field, t);
    CodeAndField(0xc9, field, t);
    assert forall k: byte :: [k] + field == [k, a, b, c, d];
  }

  lemma FormatsOfEight(a: byte, b: byte, c: byte, d: byte, e: byte, f: byte, g: byte, h: byte, n: nat, t: Octets)
    requires n == 0x1_0000_0000 * (0x100_0000 * a + 0x1_0000 * b + 0x100 * c + d)
      + (0x100_0000 * e + 0x1_0000 * f + 0x100 * g + h)
    ensures ReadHead([0xcf, a, b, c, d, e, f, g, h] + t) == Some((HInt(n), t))
    ensures ReadHead([0xd3, a, b, c, d, e, f, g, h] + t)
      == Some((HInt(if n < 0x8000_0000_0000_0000 then n else n - 0x1_0000_0000_0000_0000), t))
    ensures ReadHead([0xcb, a, b, c, d, e, f, g, h] + t) == Some((HFloat64(n), t))
  {
    hide ReadHead, FromBE, Pow256;
    Pow256Values();
    FieldOfEight(a, b, c, d, e, f, g, h);
    var field := [a, b, c, d, e, f, g, h];
    CodeAndField(0xcf, field, t);
    CodeAndField(0xd3, field, t);
    CodeAndField(0xcb, field, t);
    assert forall k: byte :: [k] + field == [k, a, b, c, d, e, f, g, h];
  }
}
