/**
 * C#'s 32-bit signed `int` and its default (unchecked) arithmetic, in which
 * a result outside the range wraps around modulo 2^32.
 */
module CsInt {

  const TwoTo32: int := 0x1_0000_0000
  const MinInt32: int := -0x8000_0000
  const MaxInt32: int := 0x7fff_ffff

  /** The values of C#'s `int` (System.Int32). */
  newtype Int32 = x: int | -0x8000_0000 <= x < 0x8000_0000

  predicate InInt32Range(x: int) {
    MinInt32 <= x <= MaxInt32
  }

  /**
   * The Int32 that an unchecked C# operation yields for the mathematical
   * value `x`: the unique Int32 congruent to `x` modulo 2^32.
   */
  function WrapInt32(x: int): (r: Int32)
    ensures (r as int - x) % TwoTo32 == 0
    ensures r as int == x <==> InInt32Range(x)
  {
    ((x - MinInt32) % TwoTo32 + MinInt32) as Int32
  }

  /** Two Int32 values that agree modulo 2^32 are the same value. */
  lemma CongruentInt32Equal(x: Int32, y: Int32)
    requires (x as int - y as int) % TwoTo32 == 0
    ensures x == y
  {
    var d := x as int - y as int;
    assert -TwoTo32 < d < TwoTo32;
    assert d == TwoTo32 * (d / TwoTo32);
  }
}
