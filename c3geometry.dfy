/** Four-character geometry type tags of libc3 and the geometry type record
    built from them (shared/libc3/src/c3geometry.h). */
module C3Geometry {

  /** One argument of the tag macro, already cast to an unsigned byte. */
  type Byte = bv8

  /** Recovers byte `k` (0 = the top one) of a tag with a shift and a mask. */
  function ByteAt(t: bv32, k: nat): (x: Byte)
    requires k < 4
  {
    var shifted := if k == 0 then t >> 24 else if k == 1 then t >> 16 else if k == 2 then t >> 8 else t;
    (shifted & 0xFF) as Byte
  }

  /** The macro that packs four bytes big-endian into a 32-bit tag: the first
      byte lands in the top eight bits, the last one in the bottom eight, and
      each is found again at its own position by a shift and a mask. */
  function C3Type(a: Byte, b: Byte, c: Byte, d: Byte): (t: bv32)
    ensures ByteAt(t, 0) == a && ByteAt(t, 1) == b && ByteAt(t, 2) == c && ByteAt(t, 3) == d
  {
    ((a as bv32) << 24) | ((b as bv32) << 16) | ((c as bv32) << 8) | (d as bv32)
  }

  /** Appending one byte below a shorter word multiplies its value by 256. */
  lemma AppendByte8(x: bv8, y: Byte)
    ensures (((x as bv16) << 8) | (y as bv16)) as int == x as int * 0x100 + y as int
  {
  }

  lemma AppendByte16(x: bv16, y: Byte)
    ensures (((x as bv24) << 8) | (y as bv24)) as int == x as int * 0x100 + y as int
  {
  }

  lemma AppendByte24(x: bv24, y: Byte)
    ensures (((x as bv32) << 8) | (y as bv32)) as int == x as int * 0x100 + y as int
  {
  }

  /** Read as an unsigned number, the tag is the base-256 number whose digits
      are the four bytes, most significant first. */
  lemma C3TypeValue(a: Byte, b: Byte, c: Byte, d: Byte)
    ensures C3Type(a, b, c, d) as int == a as int * 0x100_0000 + b as int * 0x1_0000 + c as int * 0x100 + d as int
  {
    var hi: bv16 := ((a as bv16) << 8) | (b as bv16);
    var mid: bv24 := ((hi as bv24) << 8) | (c as bv24);
    PackInSteps(a, b, c, d, hi, mid);
    AppendByte8(a, b);
    AppendByte16(hi, c);
    AppendByte24(mid, d);
  }

  /** The tag is built equally well one byte at a time from the top. */
  lemma PackInSteps(a: Byte, b: Byte, c: Byte, d: Byte, hi: bv16, mid: bv24)
    requires hi == ((a as bv16) << 8) | (b as bv16)
    requires mid == ((hi as bv24) << 8) | (c as bv24)
    ensures C3Type(a, b, c, d) == ((mid as bv32) << 8) | (d as bv32)
  {
  }

  /** Different four-character codes give different tags. */
  lemma C3TypeInjective(a: Byte, b: Byte, c: Byte, d: Byte, a': Byte, b': Byte, c': Byte, d': Byte)
    ensures C3Type(a, b, c, d) == C3Type(a', b', c', d') <==> (a, b, c, d) == (a', b', c', d')
  {
    var t, t' := C3Type(a, b, c, d), C3Type(a', b', c', d');
    if t == t' {
      assert a == ByteAt(t, 0) == a' && b == ByteAt(t, 1) == b';
      assert c == ByteAt(t, 2) == c' && d == ByteAt(t, 3) == d';
    }
  }

  /** The generic geometry type tags. */
  const RawType: bv32 := C3Type('r' as Byte, 'a' as Byte, 'w' as Byte, 'g' as Byte)
  const TriangleType: bv32 := C3Type('t' as Byte, 'r' as Byte, 'i' as Byte, 'a' as Byte)

  /** The two named tags differ, and their top bytes are 'r' and 't'. */
  lemma NamedTypes()
    ensures RawType != TriangleType
    ensures ByteAt(RawType, 0) == 'r' as Byte && ByteAt(TriangleType, 0) == 't' as Byte
  {
    C3TypeInjective('r' as Byte, 'a' as Byte, 'w' as Byte, 'g' as Byte,
                    't' as Byte, 'r' as Byte, 'i' as Byte, 'a' as Byte);
  }

  /** A geometry type: the tag (the C field `type`) and the renderer's
      subtype, which this model carries without interpreting it. */
  datatype GeometryType = GeometryType(kind: bv32, subtype: int)

  /** The inline constructor of a geometry type record. */
  function MakeGeometryType(kind: bv32, subtype: int): (r: GeometryType)
  {
    GeometryType(kind, subtype)
  }

  /** A geometry type built from a four-character code identifies that code:
      two records have the same type exactly when their codes are equal,
      whatever their subtypes. */
  lemma GeometryTypeIdentifiesCode(a: Byte, b: Byte, c: Byte, d: Byte, subtype: int,
                                   a': Byte, b': Byte, c': Byte, d': Byte, subtype': int)
    ensures MakeGeometryType(C3Type(a, b, c, d), subtype).kind == MakeGeometryType(C3Type(a', b', c', d'), subtype').kind
            <==> (a, b, c, d) == (a', b', c', d')
  {
    C3TypeInjective(a, b, c, d, a', b', c', d');
  }
}
