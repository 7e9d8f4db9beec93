/**
 * `cookie::Flags`: the 32-bit set of configuration bits passed to the engine.
 * Primitive flags are single bits; MIME, NODESC and NO_CHECK_BUILTIN are
 * unions of them. The unnamed flag `_ = !0` declares every bit known, so no
 * bit pattern is ever dropped by a conversion.
 */
module Flags {
  import opened Wrappers
  import opened CTypes
  import opened MagicFfi

  datatype Flags = Flags(bits: bv32)

  /** The flag set holding just one primitive flag. */
  function Primitive(b: FlagBit): Flags { Flags(Mask(b)) }

  const DEBUG             := Primitive(Debug)
  const SYMLINK           := Primitive(Symlink)
  const COMPRESS          := Primitive(Compress)
  const DEVICES           := Primitive(Devices)
  const MIME_TYPE         := Primitive(MimeType)
  const CONTINUE          := Primitive(Continue)
  const CHECK             := Primitive(CheckWarnings)
  const PRESERVE_ATIME    := Primitive(PreserveAtime)
  const RAW               := Primitive(Raw)
  const ERROR             := Primitive(Error)
  const MIME_ENCODING     := Primitive(MimeEncoding)
  const MIME              := Union(MIME_TYPE, MIME_ENCODING)
  const APPLE             := Primitive(Apple)
  const EXTENSION         := Primitive(Extension)
  const NODESC            := Union(Union(EXTENSION, MIME), APPLE)
  const NO_CHECK_COMPRESS := Primitive(NoCheckCompress)
  const NO_CHECK_TAR      := Primitive(NoCheckTar)
  const NO_CHECK_SOFT     := Primitive(NoCheckSoft)
  const NO_CHECK_APPTYPE  := Primitive(NoCheckApptype)
  const NO_CHECK_ELF      := Primitive(NoCheckElf)
  const NO_CHECK_TEXT     := Primitive(NoCheckText)
  const NO_CHECK_CDF      := Primitive(NoCheckCdf)
  const NO_CHECK_CSV      := Primitive(NoCheckCsv)
  const NO_CHECK_TOKENS   := Primitive(NoCheckTokens)
  const NO_CHECK_ENCODING := Primitive(NoCheckEncoding)
  const NO_CHECK_JSON     := Primitive(NoCheckJson)
  const NO_CHECK_BUILTIN  :=
    Union(Union(Union(Union(Union(Union(Union(Union(Union(
      NO_CHECK_COMPRESS, NO_CHECK_TAR), NO_CHECK_APPTYPE), NO_CHECK_ELF), NO_CHECK_TEXT),
      NO_CHECK_CSV), NO_CHECK_CDF), NO_CHECK_TOKENS), NO_CHECK_ENCODING), NO_CHECK_JSON)

  /** The declared flags, in declaration order, apart from the unnamed one. */
  const Declared: seq<Flags> := [
    DEBUG, SYMLINK, COMPRESS, DEVICES, MIME_TYPE, CONTINUE, CHECK, PRESERVE_ATIME, RAW, ERROR,
    MIME_ENCODING, MIME, APPLE, EXTENSION, NODESC, NO_CHECK_COMPRESS, NO_CHECK_TAR,
    NO_CHECK_SOFT, NO_CHECK_APPTYPE, NO_CHECK_ELF, NO_CHECK_TEXT, NO_CHECK_CDF, NO_CHECK_CSV,
    NO_CHECK_TOKENS, NO_CHECK_ENCODING, NO_CHECK_JSON, NO_CHECK_BUILTIN]

  /** The bits of the unnamed flag `_ = !0`. */
  const Unnamed: bv32 := !0

  // ---------------------------------------------------------------------------
  // Set operations
  // ---------------------------------------------------------------------------

  function Empty(): Flags { Flags(0) }

  function Union(a: Flags, b: Flags): Flags { Flags(a.bits | b.bits) }

  function Intersection(a: Flags, b: Flags): Flags { Flags(a.bits & b.bits) }

  function Difference(a: Flags, b: Flags): Flags { Flags(a.bits & !b.bits) }

  /** `contains`: every bit of `b` is set in `a`. */
  predicate Contains(a: Flags, b: Flags) { a.bits & b.bits == b.bits }

  /** `intersects`: some bit is set in both. */
  predicate Intersects(a: Flags, b: Flags) { a.bits & b.bits != 0 }

  /** The union of a list of flag sets. */
  function UnionOf(fs: seq<Flags>): Flags
  {
    if |fs| == 0 then Empty() else Union(fs[0], UnionOf(fs[1..]))
  }

  /** `all()`: the union of every declared flag, the unnamed one included. */
  function All(): Flags
  {
    Union(Flags(Unnamed), UnionOf(Declared))
  }

  // ---------------------------------------------------------------------------
  // Conversions
  // ---------------------------------------------------------------------------

  /** `bits()`. */
  function Bits(f: Flags): bv32 { f.bits }

  /** `from_bits`: `Some` unless a bit outside `all()` is set. */
  function FromBits(bits: bv32): Option<Flags>
  {
    if bits & !All().bits == 0 then Some(Flags(bits)) else None
  }

  /** `from_bits_truncate`: drop the bits outside `all()`. */
  function FromBitsTruncate(bits: bv32): Flags { Flags(bits & All().bits) }

  /** `from_bits_retain`: keep every bit. */
  function FromBitsRetain(bits: bv32): Flags { Flags(bits) }

  /** The `c_int` the wrapper passes to `magic_open` and `magic_setflags` (`bits() as _`). */
  function AsNative(f: Flags): int32 { AsCInt(f.bits) }

  // ---------------------------------------------------------------------------
  // Properties
  // ---------------------------------------------------------------------------

  /** Because `_ = !0` is declared, `all()` has every one of the 32 bits set. */
  lemma AllIsEveryBit()
    ensures All().bits == !0
  {
  }

  /** Every bit pattern survives the trip from bits to flags and back, whichever conversion is used. */
  lemma BitsRoundTrip(bits: bv32)
    ensures FromBits(bits) == Some(Flags(bits))
    ensures FromBitsTruncate(bits) == Flags(bits)
    ensures Bits(FromBitsRetain(bits)) == bits
  {
    AllIsEveryBit();
  }

  /** And flags to bits and back is the identity too. */
  lemma FlagsRoundTrip(f: Flags)
    ensures FromBits(Bits(f)) == Some(f)
  {
    BitsRoundTrip(f.bits);
  }

  /** No information is lost on the way to the native layer. */
  lemma AsNativeInjective(a: Flags, b: Flags)
    requires AsNative(a) == AsNative(b)
    ensures a == b
  {
    AsCIntInjective(a.bits, b.bits);
  }

  /** Distinct primitive flags are disjoint, non-empty sets. */
  lemma PrimitivesDisjoint(p: FlagBit, q: FlagBit)
    ensures Primitive(p) != Empty()
    ensures p != q ==> !Intersects(Primitive(p), Primitive(q))
  {
    MaskIsOneBit(p, 0);
    if p != q {
      MasksDisjoint(p, q);
    }
  }

  /** MIME is MIME_TYPE together with MIME_ENCODING, and agrees with the native MAGIC_MIME. */
  lemma {:induction false} MimeIsTypeAndEncoding(b: FlagBit)
    ensures MIME.bits == MAGIC_MIME
    ensures Contains(MIME, Primitive(b)) <==> b == MimeType || b == MimeEncoding
  {
    var bs := [MimeType, MimeEncoding];
    assert bs[1..] == [MimeEncoding];
    assert MaskOf(bs[1..]) == Mask(MimeEncoding) | MaskOf([]);
    assert MaskOf(bs) == Mask(MimeType) | MaskOf(bs[1..]);
    assert MIME.bits == MaskOf(bs);
    MaskOfHas(bs, b);
  }

  /** NODESC is EXTENSION, MIME and APPLE, and agrees with the native MAGIC_NODESC. */
  lemma {:induction false} NodescIsExtensionMimeApple(b: FlagBit)
    ensures NODESC.bits == MAGIC_NODESC
    ensures Contains(NODESC, MIME)
    ensures Contains(NODESC, Primitive(b)) <==> b in {Extension, MimeType, MimeEncoding, Apple}
  {
    var bs := [Extension, MimeType, MimeEncoding, Apple];
    assert bs[1..][1..][1..] == [Apple];
    assert NODESC.bits == MaskOf(bs);
    MaskOfHas(bs, b);
  }

  /**
   * NO_CHECK_BUILTIN holds exactly the ten listed "skip a built-in test"
   * flags and agrees with the native MAGIC_NO_CHECK_BUILTIN; NO_CHECK_SOFT
   * is not among them.
   */
  lemma {:induction false} NoCheckBuiltinIsTheTenChecks(b: FlagBit)
    ensures NO_CHECK_BUILTIN.bits == MAGIC_NO_CHECK_BUILTIN
    ensures Contains(NO_CHECK_BUILTIN, Primitive(b)) <==> b in NoCheckBuiltinBits
    ensures !Intersects(NO_CHECK_BUILTIN, NO_CHECK_SOFT)
  {
    NoCheckBuiltinIsMaskOf();
    MaskOfHas(NoCheckBuiltinBits, b);
    MaskOfHas(NoCheckBuiltinBits, NoCheckSoft);
    MaskIsOneBit(NoCheckSoft, MaskOf(NoCheckBuiltinBits));
  }

  /** The union of the ten built-in-test flags has exactly the bits of their list. */
  lemma NoCheckBuiltinIsMaskOf()
    ensures NO_CHECK_BUILTIN.bits == MaskOf(NoCheckBuiltinBits)
  {
    var bs := NoCheckBuiltinBits;
    assert bs[1..][1..][1..][1..][1..][1..][1..][1..][1..][1..] == [];
  }

  lemma UnionContainsBoth(a: Flags, b: Flags)
    ensures Contains(Union(a, b), a) && Contains(Union(a, b), b)
  {
  }

  lemma IntersectionInBoth(a: Flags, b: Flags)
    ensures Contains(a, Intersection(a, b)) && Contains(b, Intersection(a, b))
  {
  }

  lemma DifferenceAvoids(a: Flags, b: Flags)
    ensures !Intersects(Difference(a, b), b)
    ensures Union(Difference(a, b), Intersection(a, b)) == a
  {
  }
}
