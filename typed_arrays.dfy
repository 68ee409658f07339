/**
 * The parts of ECMAScript that the packer relies on when it writes
 * `new Uint16Array(buffers.indices)`: the ToUint16 conversion of section 7.1.8
 * of ECMA-262 (6th edition) applied to every element, in order.
 *
 * JavaScript numbers are modelled as `real`; NaN, the infinities and -0 have no
 * counterpart here (ToUint16 maps all of them to 0).
 */
module TypedArrays {

  const TwoToThe16: int := 65536

  /** An element of a Uint16Array. */
  type Uint16 = x: int | 0 <= x < TwoToThe16

  /** sign(x) * floor(abs(x)): step 3 of ToUint16, rounding toward zero. */
  function Truncate(x: real): (n: int)
    ensures 0.0 <= x ==> n as real <= x < n as real + 1.0
    ensures x < 0.0 ==> n as real - 1.0 < x <= n as real
  {
    if x >= 0.0 then x.Floor else -((-x).Floor)
  }

  /**
   * ToUint16 (section 7.1.8 of ECMA-262): the integer part of `x`, taken modulo
   * 2^16. The modulo of the standard has the sign of the divisor, so a negative
   * integer part wraps to the top of the range.
   */
  function ToUint16(x: real): (r: Uint16)
    ensures (r - Truncate(x)) % TwoToThe16 == 0
    ensures 0 <= Truncate(x) < TwoToThe16 ==> r == Truncate(x)
  {
    Truncate(x) % TwoToThe16
  }

  /** The elements of `new Uint16Array(values)`: one ToUint16 per element, in order. */
  function Uint16ArrayFrom(values: seq<real>): (r: seq<Uint16>)
    ensures |r| == |values|
    ensures forall i :: 0 <= i < |values| ==> r[i] == ToUint16(values[i])
  {
    if values == [] then [] else [ToUint16(values[0])] + Uint16ArrayFrom(values[1..])
  }

  /** `x` holds a whole number, as every index a terrain provider produces does. */
  predicate IsIntegral(x: real) {
    x.Floor as real == x
  }

  /**
   * An index buffer whose vertex count fits in 16 bits comes through the
   * conversion unchanged: every index reads the same vertex afterwards.
   */
  lemma {:induction false} SmallIndicesArePreserved(indices: seq<real>, vertexCount: nat)
    requires vertexCount <= TwoToThe16
    requires forall i :: 0 <= i < |indices| ==> IsIntegral(indices[i]) && 0.0 <= indices[i] < vertexCount as real
    ensures forall i :: 0 <= i < |indices| ==> Uint16ArrayFrom(indices)[i] as real == indices[i]
  {
    forall i | 0 <= i < |indices|
      ensures Uint16ArrayFrom(indices)[i] as real == indices[i]
    {
      assert Truncate(indices[i]) == indices[i].Floor;
    }
  }

  /** Integers that differ by a multiple of 2^16 convert to the same element. */
  lemma ToUint16Periodic(n: int, k: int)
    ensures ToUint16((n + k * TwoToThe16) as real) == ToUint16(n as real)
  {
    var m := n + k * TwoToThe16;
    assert Truncate(m as real) == m;
    assert Truncate(n as real) == n;
    var q, r := n / TwoToThe16, n % TwoToThe16;
    assert m == (q + k) * TwoToThe16 + r;
    ModuloOfMultiplePlus(q + k, r);
  }

  /** (q * 2^16 + r) mod 2^16 is r when r is already a residue. */
  lemma ModuloOfMultiplePlus(q: int, r: int)
    requires 0 <= r < TwoToThe16
    ensures (q * TwoToThe16 + r) % TwoToThe16 == r
  {
  }

  /**
   * Nothing rejects an index of 2^16 or more, or a negative one: it wraps
   * silently onto a lower vertex, and the fraction of a non-integral index is
   * dropped toward zero.
   */
  lemma OutOfRangeIndicesWrap()
    ensures Uint16ArrayFrom([65536.0, 65537.0, -1.0, 2.75, -0.5]) == [0, 1, 65535, 2, 0]
  {
  }
}
