/**
 * The C-level types that cross the boundary to the native engine:
 * `c_int` (a 32-bit two's-complement integer), bytes, and NUL-terminated
 * strings (`CString`/`CStr`), which cannot hold an interior NUL.
 */
module CTypes {

  newtype int32 = x: int | -0x8000_0000 <= x < 0x8000_0000

  type byte = bv8

  /** The contents of a C string: everything before its terminator, which is never inside it. */
  type CString = s: string | '\0' !in s

  /**
   * `bits as c_int`: the 32 bits of an unsigned value read as a signed one.
   * Values from 2^31 upwards wrap around to negative numbers.
   */
  function AsCInt(bits: bv32): (r: int32)
    ensures 0 <= r ==> r as int == bits as int
    ensures r < 0 ==> r as int == bits as int - 0x1_0000_0000
  {
    var n := bits as int;
    if n < 0x8000_0000 then n as int32 else (n - 0x1_0000_0000) as int32
  }

  /** `x as c_uint`: the reverse reinterpretation, from signed back to the 32 bits. */
  function AsCUInt(x: int32): bv32
  {
    var n := if x < 0 then x as int + 0x1_0000_0000 else x as int;
    n as bv32
  }

  /** The cast to `c_int` loses nothing: it is undone by the cast back. */
  lemma AsCIntRoundTrip(bits: bv32)
    ensures AsCUInt(AsCInt(bits)) == bits
  {
  }

  /** Two different flag words never reach the native layer as the same `c_int`. */
  lemma AsCIntInjective(a: bv32, b: bv32)
    requires AsCInt(a) == AsCInt(b)
    ensures a == b
  {
    AsCIntRoundTrip(a);
    AsCIntRoundTrip(b);
  }
}
