/** Go's integer operators, written out over Dafny's unbounded `int`.
    Dafny's `/` and `%` are Euclidean; Go's truncate toward zero. Go's
    `uint64` arithmetic wraps modulo 2^64. */
module GoInt {

  function Abs(x: int): (r: int)
    ensures r >= 0 && (r == x || r == -x)
  {
    if x < 0 then -x else x
  }

  function Min(a: int, b: int): (r: int)
    ensures r <= a && r <= b && (r == a || r == b)
  {
    if a <= b then a else b
  }

  /** Go's `a / b` on `int`: the quotient rounded toward zero. */
  function TruncDiv(a: int, b: int): int
    requires b != 0
  {
    if a >= 0 then
      (if b > 0 then a / b else -(a / -b))
    else
      (if b > 0 then -((-a) / b) else (-a) / (-b))
  }

  /** The remainder left by `TruncDiv` has the sign of the dividend and is
      smaller than the divisor in magnitude. */
  lemma TruncDivBounds(a: int, b: int)
    requires b != 0
    ensures a >= 0 ==> 0 <= a - TruncDiv(a, b) * b < Abs(b)
    ensures a < 0 ==> -Abs(b) < a - TruncDiv(a, b) * b <= 0
  {
  }

  /** Go's `a % b` on `int`: the remainder takes the sign of `a`. */
  function TruncRem(a: int, b: int): (r: int)
    requires b != 0
    ensures a >= 0 ==> 0 <= r < Abs(b)
    ensures a < 0 ==> -Abs(b) < r <= 0
  {
    TruncDivBounds(a, b);
    a - TruncDiv(a, b) * b
  }

  /** For a non-negative dividend and positive divisor the quotient is
      the floor: `q * b <= a < (q + 1) * b`. */
  lemma TruncDivFloor(a: int, b: int)
    requires a >= 0 && b > 0
    ensures TruncDiv(a, b) * b <= a < (TruncDiv(a, b) + 1) * b
  {
    TruncDivBounds(a, b);
    var q := TruncDiv(a, b);
    assert (q + 1) * b == q * b + b;
  }

  /** A non-negative quotient is pinned down by its two bounds. */
  lemma TruncDivUnique(a: int, b: int, q: int)
    requires b > 0 && a >= 0
    requires q * b <= a < q * b + b
    ensures TruncDiv(a, b) == q
  {
    var t := TruncDiv(a, b);
    TruncDivBounds(a, b);
    assert t * b <= a < t * b + b;
    if t < q {
      MulAtLeast(q - t, b);
    } else if t > q {
      MulAtLeast(t - q, b);
    }
  }

  lemma MulAtLeast(x: int, b: int)
    requires x >= 1 && b > 0
    ensures x * b >= b
  {
  }

  const TwoTo64: int := 0x1_0000_0000_0000_0000

  /** Conversion to Go's `uint64`: the value modulo 2^64. */
  function U64(x: int): (r: nat)
    ensures r < TwoTo64
    ensures 0 <= x < TwoTo64 ==> r == x
    ensures (x - r) % TwoTo64 == 0
  {
    x % TwoTo64
  }
}
