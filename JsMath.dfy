/**
 * The JavaScript number operations the screens rely on, on exact numbers:
 * `Math.floor(Math.random() * n)`, `Math.round` and the `%` operator, whose
 * remainder takes the sign of the dividend.
 */
module JsMath {

  /** A value `Math.random()` can return. */
  predicate IsDraw(r: real) {
    0.0 <= r < 1.0
  }

  /** `Math.floor(r * n)` for a draw `r`: an index below `n`. */
  function Pick(r: real, n: nat): (k: nat)
    requires IsDraw(r) && n > 0
    ensures k < n
  {
    PickBounds(r, n);
    (r * n as real).Floor
  }

  lemma PickBounds(r: real, n: nat)
    requires IsDraw(r) && n > 0
    ensures 0.0 <= r * n as real < n as real
  {
    assert r * n as real <= 1.0 * n as real by {
      MultiplyMonotone(r, 1.0, n as real);
    }
    assert r * n as real != n as real || r == 1.0;
  }

  lemma MultiplyMonotone(a: real, b: real, c: real)
    requires a <= b && c >= 0.0
    ensures a * c <= b * c
  {
  }

  /** Every index below `n` is drawn by some value of `Math.random()`. */
  lemma EveryIndexReachable(k: nat, n: nat)
    requires k < n
    ensures IsDraw(k as real / n as real) && Pick(k as real / n as real, n) == k
  {
    assert (k as real / n as real) * n as real == k as real;
  }

  /** `Math.round(x)`: the nearest integer, halves rounded up. */
  function Round(x: real): (k: int)
    ensures x - 0.5 < k as real <= x + 0.5
  {
    (x + 0.5).Floor
  }

  /** `a % b` in JavaScript for integers: truncated, the sign of `a`. */
  function Rem(a: int, b: int): (r: int)
    requires b != 0
    ensures a >= 0 ==> 0 <= r < (if b > 0 then b else -b)
    ensures a < 0 ==> -(if b > 0 then b else -b) < r <= 0
  {
    var m := if b > 0 then b else -b;
    if a >= 0 then a % m else -((-a) % m)
  }
}
