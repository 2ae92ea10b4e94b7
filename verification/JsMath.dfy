/** The numeric and optional-value helpers of JavaScript that the modelled code uses, over exact reals. */
module JsMath {

  datatype Option<+T> = None | Some(value: T)

  /** Math.floor */
  function Floor(x: real): int { x.Floor }

  /** Math.ceil */
  function Ceil(x: real): int { -((-x).Floor) }

  /** Math.round: halves go up, also below zero. */
  function Round(x: real): int { (x + 0.5).Floor }

  function MaxR(a: real, b: real): real { if a >= b then a else b }

  function MinR(a: real, b: real): real { if a <= b then a else b }

  function MaxI(a: int, b: int): int { if a >= b then a else b }

  function MinI(a: int, b: int): int { if a <= b then a else b }

  function Pow2(n: nat): (p: int)
    ensures p >= 1
  {
    if n == 0 then 1 else 2 * Pow2(n - 1)
  }

  lemma MulMono(x: real, y: real, k: real)
    requires x <= y && k >= 0.0
    ensures x * k <= y * k && k * x <= k * y
  {
    assert (y - x) * k >= 0.0;
  }
}
