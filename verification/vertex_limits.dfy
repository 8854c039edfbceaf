/**
 * Unsigned 32-bit words and the vertex-count limits of one draw call.
 *
 * Vertex indices are `uint32`, so one vertex buffer can address at most
 * 2^32-1 vertices. On a 32-bit target the limit is lowered so that the
 * number of vertex floats still fits in the platform `int`.
 */
module VertexLimits {

  /** The number of distinct `uint32` values. */
  const Modulus32: int := 0x1_0000_0000

  /** An unsigned 32-bit word: a vertex index, or the bit pattern of a
      `float32` vertex component or uniform value. */
  newtype U32 = x: int | 0 <= x < Modulus32

  const MaxUint32: int := 0xFFFF_FFFF
  const MaxInt32: int := 0x7FFF_FFFF
  const MaxInt64: int := 0x7FFF_FFFF_FFFF_FFFF

  /** The number of `float32` values per vertex. The graphics package that
      defines it is not part of this model; this is its value in the engine
      version modelled here. */
  const VertexFloatCount: nat := 12

  /** Conversion to `uint32`, keeping the low 32 bits as Go does. */
  function ToU32(x: int): (r: U32)
    ensures 0 <= x < Modulus32 ==> r as int == x
    ensures (r as int - x) % Modulus32 == 0
  {
    (x % Modulus32) as U32
  }

  /** Word size of the platform `uint` and `int`. */
  datatype Arch = Bits32 | Bits64

  /** `^uint(0)`: the largest value of the platform `uint`. */
  function MaxUint(a: Arch): nat
  {
    match a
    case Bits32 => 0xFFFF_FFFF
    case Bits64 => 0xFFFF_FFFF_FFFF_FFFF
  }

  /** The largest value of the platform `int`. */
  function MaxInt(a: Arch): nat
  {
    match a
    case Bits32 => MaxInt32
    case Bits64 => MaxInt64
  }

  /** `1 >> (^uint(0) >> 63)`: the shift count is 1 on a 64-bit target and
      0 on a 32-bit one, where a shift by 63 clears every bit. */
  function Is32Bit(a: Arch): (r: nat)
    ensures r == 1 <==> a.Bits32?
    ensures r <= 1
  {
    var shift := MaxUint(a) / 0x8000_0000_0000_0000;  // x >> 63 is x / 2^63
    1 / Pow2(shift)
  }

  function Pow2(n: nat): (r: nat)
    ensures r > 0
  {
    if n == 0 then 1 else 2 * Pow2(n - 1)
  }

  function Is64Bit(a: Arch): nat
  {
    1 - Is32Bit(a)
  }

  /** The largest number of vertices of one vertex buffer. */
  function MaxVertexCount(a: Arch): (r: nat)
    ensures 0 < r <= MaxUint32
    ensures a.Bits64? ==> r == MaxUint32
    ensures r * VertexFloatCount <= MaxInt(a)
  {
    match a
    case Bits32 => MaxInt32 / VertexFloatCount
    case Bits64 => MaxUint32
  }

  /** The limit is the branch-free expression of the code:
      `is64bit*math.MaxUint32 + is32bit*(math.MaxInt32/VertexFloatCount)`. */
  lemma MaxVertexCountFormula(a: Arch)
    ensures MaxVertexCount(a) == Is64Bit(a) * MaxUint32 + Is32Bit(a) * (MaxInt32 / VertexFloatCount)
  {
  }

  /** The largest number of vertex floats of one vertex buffer. */
  function MaxVertexFloatCount(a: Arch): (r: nat)
    ensures r / VertexFloatCount <= MaxUint32
    ensures r <= MaxInt(a)
  {
    MaxVertexCount(a) * VertexFloatCount
  }

  /** Whether a vertex buffer holding `next` floats would exceed the limit. */
  predicate MustUseDifferentVertexBuffer(a: Arch, next: int)
  {
    next > MaxVertexFloatCount(a)
  }

  /** On a 32-bit target the float count of a full vertex buffer does not
      overflow `int`; on a 64-bit target the vertex limit is 2^32-1. */
  lemma LimitsFitTheTarget()
    ensures MaxVertexFloatCount(Bits32) <= MaxInt32
    ensures MaxVertexCount(Bits32) == MaxInt32 / VertexFloatCount
    ensures MaxVertexCount(Bits64) == MaxUint32
    ensures MaxVertexFloatCount(Bits64) <= MaxInt64
  {
  }

  /** Every vertex offset inside a buffer that respects the limit converts
      to `uint32` without losing bits. */
  lemma VertexOffsetFitsUint32(a: Arch, floats: nat)
    requires floats <= MaxVertexFloatCount(a)
    ensures ToU32(floats / VertexFloatCount) as int == floats / VertexFloatCount
  {
  }
}
