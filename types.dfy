/** Value types shared by the drawable renderer model: an Option for the
    source's null handles, the fixed-width integers the C++ code converts
    between, 32-bit floats compared the way C++ compares them, and the
    vertex/index range of a draw segment. */
module Types {

  datatype Option<+T> = None | Some(value: T)

  newtype int16 = x: int | -0x8000 <= x < 0x8000
  newtype uint16 = x: int | 0 <= x < 0x1_0000
  newtype int32 = x: int | -0x8000_0000 <= x < 0x8000_0000
  newtype uint32 = x: int | 0 <= x < 0x1_0000_0000

  const UInt16Max: int := 0xFFFF

  /** The value a conversion to uint16_t yields: the residue modulo 2^16
      (Dafny's % is Euclidean, so negative operands wrap as in C++). */
  function ToUInt16(x: int): (r: uint16)
    ensures 0 <= x <= UInt16Max ==> r as int == x
    ensures (r as int - x) % 0x1_0000 == 0
  {
    (x % 0x1_0000) as uint16
  }

  /** Values congruent modulo 2^16 convert to the same uint16_t. */
  lemma ToUInt16Congruent(a: int, b: int)
    requires (a - b) % 0x1_0000 == 0
    ensures ToUInt16(a) == ToUInt16(b)
  {
    var q := (a - b) / 0x1_0000;
    assert a == b + 0x1_0000 * q;
    assert a % 0x1_0000 == b % 0x1_0000;
  }

  /** Converting an intermediate result to uint16_t before adding does
      not change the final uint16_t. */
  lemma ToUInt16Add(a: int, k: int)
    ensures ToUInt16(ToUInt16(a) as int + k) == ToUInt16(a + k)
  {
    ToUInt16Congruent(ToUInt16(a) as int + k, a + k);
  }

  /** The value a conversion to uint32_t yields. */
  function ToUInt32(x: int): (r: uint32)
    ensures 0 <= x < 0x1_0000_0000 ==> r as int == x
    ensures (r as int - x) % 0x1_0000_0000 == 0
  {
    (x % 0x1_0000_0000) as uint32
  }

  /** The value a conversion to int16_t yields: the two's-complement
      residue in [-2^15, 2^15). */
  function ToInt16(x: int): (r: int16)
    ensures -0x8000 <= x < 0x8000 ==> r as int == x
    ensures (r as int - x) % 0x1_0000 == 0
  {
    ((x + 0x8000) % 0x1_0000 - 0x8000) as int16
  }

  /** A 32-bit IEEE-754 float, kept as its bit pattern. The model never
      computes with floats; it only compares them. */
  datatype Float = Float(bits: bv32)

  predicate IsNaN(f: Float) {
    f.bits & 0x7F80_0000 == 0x7F80_0000 && f.bits & 0x007F_FFFF != 0
  }

  predicate IsZero(f: Float) {
    f.bits & 0x7FFF_FFFF == 0
  }

  /** C++ `==` on float: false whenever either side is NaN, true for the
      two zeros, otherwise true exactly for identical bit patterns. */
  predicate FloatEq(a: Float, b: Float)
  {
    !IsNaN(a) && !IsNaN(b) && (a.bits == b.bits || (IsZero(a) && IsZero(b)))
  }

  /** `==` on std::array<float, N>: element-wise float equality. */
  predicate FloatsEq(a: seq<Float>, b: seq<Float>)
  {
    |a| == |b| && forall k :: 0 <= k < |a| ==> FloatEq(a[k], b[k])
  }

  /** A NaN is never equal to itself, so storing a NaN over the same NaN
      still counts as a change. */
  lemma NaNIsNotSelfEqual(f: Float)
    requires IsNaN(f)
    ensures !FloatEq(f, f)
  {
  }

  /** Outside NaN, float equality is reflexive. */
  lemma FloatEqReflexive(f: Float)
    requires !IsNaN(f)
    ensures FloatEq(f, f)
  {
  }

  /** A sub-range of a shared vertex buffer and of a shared index buffer
      (SegmentBase without its sort key). */
  datatype Segment = Segment(vertexOffset: nat, indexOffset: nat, vertexLength: nat, indexLength: nat)
}
