/**
 * The one host function published to the embedded JavaScript runtime:
 * `SharedMath.Add`, an expression-bodied `a + b` on C# `int`.
 */
module SharedMath {
  import opened CsInt

  /**
   * `a + b` under C#'s default unchecked arithmetic: the exact sum when it
   * fits in an `int`, otherwise the sum wrapped modulo 2^32.
   */
  function Add(a: Int32, b: Int32): (r: Int32)
    ensures (r as int - (a as int + b as int)) % TwoTo32 == 0
    ensures r as int == a as int + b as int <==> InInt32Range(a as int + b as int)
  {
    WrapInt32(a as int + b as int)
  }

  lemma AddCommutative(a: Int32, b: Int32)
    ensures Add(a, b) == Add(b, a)
  {
  }

  lemma AddZeroIdentity(a: Int32)
    ensures Add(a, 0) == a && Add(0, a) == a
  {
  }

  /** Wrap-around makes the addition associative even when a partial sum overflows. */
  lemma {:induction false} AddAssociative(a: Int32, b: Int32, c: Int32)
    ensures Add(Add(a, b), c) == Add(a, Add(b, c))
  {
    var ab, bc := Add(a, b), Add(b, c);
    var lhs, rhs := Add(ab, c), Add(a, bc);
    var s := a as int + b as int + c as int;
    assert (lhs as int - s) % TwoTo32 == 0 by {
      ModSum(lhs as int - (ab as int + c as int), ab as int - (a as int + b as int));
    }
    assert (rhs as int - s) % TwoTo32 == 0 by {
      ModSum(rhs as int - (a as int + bc as int), bc as int - (b as int + c as int));
    }
    assert (lhs as int - rhs as int) % TwoTo32 == 0 by {
      ModSum(lhs as int - s, rhs as int - s);
    }
    CongruentInt32Equal(lhs, rhs);
  }

  /** Multiples of 2^32 are closed under sum and difference. */
  lemma ModSum(x: int, y: int)
    requires x % TwoTo32 == 0 && y % TwoTo32 == 0
    ensures (x + y) % TwoTo32 == 0 && (x - y) % TwoTo32 == 0
  {
    assert x == TwoTo32 * (x / TwoTo32);
    assert y == TwoTo32 * (y / TwoTo32);
    assert x + y == TwoTo32 * (x / TwoTo32 + y / TwoTo32);
    assert x - y == TwoTo32 * (x / TwoTo32 - y / TwoTo32);
  }

  /** The overflow case: the largest `int` plus one wraps to the smallest. */
  lemma AddOverflowWraps()
    ensures Add(MaxInt32 as Int32, 1) as int == MinInt32
  {
  }

  /** The call the home page loader renders: `2 + 2 = 4`. */
  lemma AddTwoTwo()
    ensures Add(2, 2) == 4
  {
  }
}
