/** Integer division facts the window and page arithmetic rely on. */
module Arith {

  lemma MulAtLeast(a: int, w: int)
    requires a >= 1 && w > 0
    ensures a * w >= w
  {
    assert a * w == (a - 1) * w + w;
  }

  /** Euclidean division is unique: a value written as `k * w + m` with `0 <= m < w` has floor `k`. */
  lemma FloorOf(x: int, w: int, k: int, m: int)
    requires w > 0 && 0 <= m < w && x == k * w + m
    ensures x / w == k && x % w == m
  {
    var q, r := x / w, x % w;
    assert x == q * w + r && 0 <= r < w;
    if q > k {
      assert (q - k) * w == m - r;
      MulAtLeast(q - k, w);
    } else if q < k {
      assert (k - q) * w == r - m;
      MulAtLeast(k - q, w);
    }
  }

  /** Multiplication by a positive factor is monotonic. */
  lemma MulMonotonic(a: int, b: int, w: int)
    requires a <= b && w > 0
    ensures a * w <= b * w
  {
    if a < b {
      MulAtLeast(b - a, w);
      assert (b - a) * w == b * w - a * w;
    }
  }

  /** `Math.ceil(x / w)` for whole `x >= 0` and `w >= 1`: the fewest blocks of `w` covering `x`. */
  function CeilDiv(x: nat, w: int): (r: nat)
    requires w >= 1
    ensures r * w >= x
    ensures r > 0 ==> (r - 1) * w < x
  {
    var q := x / w;
    assert x == q * w + x % w;
    if x % w == 0 then q
    else
      assert (q + 1) * w == q * w + w;
      q + 1
  }
}
