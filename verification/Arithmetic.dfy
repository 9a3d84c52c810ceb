/** Division and multiplication facts that the solver does not find by itself. */
module Arithmetic {
  lemma MulMono(a: int, b: int, m: nat)
    requires a <= b
    ensures a * m <= b * m
  {
  }

  lemma DivModIs(a: int, d: int, q: int, r: int)
    requires 0 <= r < d
    requires a == q * d + r
    ensures a / d == q && a % d == r
  {
    var q' := a / d;
    assert a == q' * d + a % d;
    if q' < q { MulMono(q' + 1, q, d); } else if q < q' { MulMono(q + 1, q', d); }
  }

  lemma SameBlock(x: int, d: int, q: int)
    requires 1 <= d
    ensures q * d <= x < q * d + d <==> x / d == q
  {
    assert x == (x / d) * d + x % d;
    if q * d <= x < q * d + d { DivModIs(x, d, q, x - q * d); }
  }

  lemma PairCode(s: int, cols: int, row: int, col: int)
    requires 0 <= col < cols
    ensures s == row * cols + col <==> s / cols == row && s % cols == col
  {
    assert s == (s / cols) * cols + s % cols;
    if s == row * cols + col { DivModIs(s, cols, row, col); }
  }

  lemma BelowBlocks(x: int, d: int, m: int)
    requires 1 <= d
    ensures x < m * d <==> x / d < m
  {
    assert x == (x / d) * d + x % d;
    if x / d < m { MulMono(x / d + 1, m, d); } else { MulMono(m, x / d, d); }
  }
}
