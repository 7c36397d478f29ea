/** The image-size arithmetic that runs when a figure is opened with a
    downsample factor: each dimension is cut down to a multiple of the factor
    before the pixels are block-averaged. */
module Downsampling {

  /** Python's floor division `a // b` (rounds towards minus infinity),
      written out because Dafny's `/` is Euclidean. */
  function FloorDiv(a: int, b: int): (q: int)
    requires b != 0
    ensures b > 0 ==> b * q <= a < b * q + b
    ensures b < 0 ==> b * q + b < a <= b * q
  {
    var m := if b > 0 then b else -b;
    assert a == m * (a / m) + a % m;
    assert b < 0 ==> b * -(a / m) == m * (a / m);
    assert b < 0 ==> b * (-(a / m) - 1) == m * (a / m) + m;
    if b > 0 then a / b
    else if a % -b == 0 then -(a / -b)
    else -(a / -b) - 1
  }

  /** A multiple of b that is smaller than |b| in size is zero. */
  lemma SmallMultiple(b: int, m: int)
    requires b != 0 && 0 <= b * m < (if b > 0 then b else -b)
    ensures b * m == 0
  {
    assert b > 0 && m >= 1 ==> b * m >= b;
    assert b > 0 && m <= -1 ==> b * m <= -b;
    assert b < 0 && m >= 1 ==> b * m <= b;
    assert b < 0 && m <= -1 ==> b * m >= -b;
  }

  /** A multiple of b leaves no remainder. */
  lemma MultipleMod(b: int, q: int)
    requires b != 0
    ensures (b * q) % b == 0
  {
    var x := b * q;
    assert x == b * (x / b) + x % b;
    assert x % b == b * (q - x / b);
    SmallMultiple(b, q - x / b);
  }

  /** `numpy.mod(a, b)` on integers, `a - b * (a // b)`: the remainder takes
      the sign of b. */
  function FloorMod(a: int, b: int): (r: int)
    requires b != 0
    ensures b > 0 ==> 0 <= r < b
    ensures b < 0 ==> b < r <= 0
    ensures (a - r) % b == 0
  {
    MultipleMod(b, FloorDiv(a, b));
    var q := a / if b > 0 then b else -b;
    var e := a % if b > 0 then b else -b;
    assert b > 0 ==> a == b * q + e;
    assert b < 0 ==> a == -b * q + e;
    assert b < 0 && e != 0 ==> b * (-q - 1) == -b * q - b;
    a - b * FloorDiv(a, b)
  }

  /** The dimension after `n - numpy.mod(n, d)`; a falsy factor (0) leaves it
      alone. */
  function Downsampled(n: int, d: int): (m: int)
    ensures d == 0 ==> m == n
    ensures d != 0 ==> m == d * FloorDiv(n, d)
    ensures d > 0 ==> m <= n < m + d
    ensures d < 0 ==> n <= m < n - d
  {
    if d == 0 then n else n - FloorMod(n, d)
  }
}
