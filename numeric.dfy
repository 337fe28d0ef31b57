/** `Math.max`, `Math.min`, `Math.abs` and `Math.ceil(a / b)` on integers. */
module Numeric {
  function Max(a: int, b: int): int
  {
    if a >= b then a else b
  }

  function Min(a: int, b: int): int
  {
    if a <= b then a else b
  }

  function Abs(a: int): (r: nat)
    ensures r == a || r == -a
  {
    if a < 0 then -a else a
  }

  /**
   * `Math.ceil(a / b)` for a non-zero divisor: the least integer `q` with
   * `a / b <= q`. (Dafny's `/` rounds towards minus infinity for a positive
   * divisor, so the ceiling is the negated floor of `-a / b`.)
   */
  function CeilDiv(a: int, b: int): (q: int)
    requires b != 0
    ensures b > 0 ==> (q - 1) * b < a <= q * b
    ensures b < 0 ==> (q - 1) * -b < -a <= q * -b
  {
    if b > 0 then CeilBounds(a, b); -((-a) / b) else CeilBounds(-a, -b); -((a) / -b)
  }

  lemma CeilBounds(a: int, b: int)
    requires b > 0
    ensures (-((-a) / b) - 1) * b < a <= -((-a) / b) * b
  {
    var f, r := (-a) / b, (-a) % b;
    assert -a == f * b + r && 0 <= r < b;
    assert -((-a) / b) * b == -(f * b);
    assert (-((-a) / b) - 1) * b == -(f * b) - b;
  }

  /** An exact multiple needs no rounding: `Math.ceil(k * b / b) == k`. */
  lemma CeilDivExact(k: int, b: int)
    requires b > 0
    ensures CeilDiv(k * b, b) == k
  {
    var q := CeilDiv(k * b, b);
    assert (q - k) * b == q * b - k * b;
    assert (q - 1 - k) * b == (q - 1) * b - k * b;
    MulPositiveSign(q - k, b);
    MulPositiveSign(q - 1 - k, b);
  }

  /** The ceiling is the only integer bounding `a / b` that tightly. */
  lemma CeilUnique(a: int, b: int, q: int)
    requires b > 0 && (q - 1) * b < a <= q * b
    ensures CeilDiv(a, b) == q
  {
    var c := CeilDiv(a, b);
    assert (c - 1 - q) * b == (c - 1) * b - q * b;
    assert (q - 1 - c) * b == (q - 1) * b - c * b;
    MulPositiveSign(c - 1 - q, b);
    MulPositiveSign(q - 1 - c, b);
  }

  lemma MulPositiveSign(x: int, b: int)
    requires b > 0
    ensures x >= 0 <==> x * b >= 0
  {
  }
}
