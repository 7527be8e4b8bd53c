/** Vocabulary shared by every component of the model. */
module Prelude {

  /** A nullable column, an optional argument, or a lookup that may miss. */
  datatype Option<+T> = None | Some(value: T)

  datatype Result<+T, +E> = Ok(value: T) | Err(error: E)

  function Min(a: int, b: int): int {
    if a <= b then a else b
  }

  function Max(a: int, b: int): int {
    if a <= b then b else a
  }

  /** `Math.ceil(a / b)` on exact rationals. */
  function CeilDiv(a: int, b: int): int
    requires b > 0
  {
    (a + b - 1) / b
  }

  /** Rounding up lands in the half-open unit above the quotient. */
  lemma CeilDivBounds(a: int, b: int)
    requires b > 0
    ensures a <= CeilDiv(a, b) * b < a + b
  {
    var q := (a + b - 1) / b;
    assert q * b == a + b - 1 - (a + b - 1) % b;
  }

  lemma Distribute(a: int, k: nat, w: int)
    requires w > 0
    ensures (a + 1 + k) * w == a * w + w + k * w && k * w >= 0
  {
  }

  lemma Multiples(a: int, b: int, w: int)
    requires w > 0
    ensures a < b ==> a * w + w <= b * w
    ensures b < a ==> b * w + w <= a * w
  {
    if a < b {
      Distribute(a, b - a - 1, w);
    } else if b < a {
      Distribute(b, a - b - 1, w);
    }
  }

  /** Two divisions of a number with remainder leave the same remainder. */
  lemma SameRemainder(w: int, p: int, s: int, q: int, r: int)
    requires 0 <= s < w && 0 <= r < w && p * w + s == q * w + r
    ensures s == r
  {
    Multiples(p, q, w);
  }
}
