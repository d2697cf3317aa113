/**
  Euclidean division facts shared by the setup code: a quotient and
  remainder pair is unique, so `n // m` and `n % m` can be pinned down by
  exhibiting one decomposition.
 */
module Arith {
  import opened Results

  lemma MulAtLeast(d: int, m: Pos)
    requires d >= 1
    ensures d * m >= m
  {
    assert d * m == (d - 1) * m + m;
  }

  /** Division with a positive divisor has exactly one quotient and remainder. */
  lemma DivUnique(n: int, m: Pos, q: int, r: int)
    requires n == q * m + r && 0 <= r < m
    ensures n / m == q && n % m == r
  {
    var q' := n / m;
    var r' := n % m;
    var d := q - q';
    assert d * m == r' - r by {
      assert q * m - q' * m == (q - q') * m;
    }
    if d >= 1 {
      MulAtLeast(d, m);
    } else if d <= -1 {
      MulAtLeast(-d, m);
    }
  }

  /** Two numbers closer than `m` have the same remainder only when equal. */
  lemma {:induction false} CloseRemaindersDiffer(a: int, b: int, m: Pos)
    requires a != b && a - b < m && b - a < m
    ensures a % m != b % m
  {
    if a % m == b % m {
      var d := a / m - b / m;
      assert a - b == d * m by {
        assert a == (a / m) * m + a % m && b == (b / m) * m + b % m;
        assert (a / m) * m - (b / m) * m == (a / m - b / m) * m;
      }
      if d >= 1 {
        MulAtLeast(d, m);
      } else if d <= -1 {
        MulAtLeast(-d, m);
      }
    }
  }
}
