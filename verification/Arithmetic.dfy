/** Division facts shared by the ring windows and the wide bucket arithmetic. */
module Arithmetic {

  lemma MultipleBound(k: int, d: int)
    requires d > 0
    ensures k >= 1 ==> k * d >= d
    ensures k <= -1 ==> k * d <= -d
  {
    if k >= 1 {
      assert (k - 1) * d >= 0;
    } else if k <= -1 {
      assert (k + 1) * d <= 0;
    }
  }

  lemma Distribute(x: int, y: int, d: int)
    ensures (x + y) * d == x * d + y * d
    ensures (x - y) * d == x * d - y * d
  {
  }

  /** Floor quotient and remainder are determined by the division equation. */
  lemma Quotient(a: int, d: int, q: int, r: int)
    requires d > 0 && a == q * d + r && 0 <= r < d
    ensures a / d == q && a % d == r
  {
    var q', r' := a / d, a % d;
    DivisionEquation(a, d);
    Distribute(q', q, d);
    MultipleBound(q' - q, d);
  }

  lemma DivisionEquation(a: int, d: int)
    requires d > 0
    ensures a == (a / d) * d + a % d && 0 <= a % d < d
  {
  }

  lemma MultiplyMonotone(x: int, y: int, z: int)
    requires x <= y && z >= 0
    ensures x * z <= y * z
  {
    Distribute(y, x, z);
    assert (y - x) * z >= 0;
  }

  lemma QuotientBounds(n: int, d: int)
    requires n >= 0 && d > 0
    ensures 0 <= n / d <= n
  {
    DivisionEquation(n, d);
    MultipleBound(n / d, d);
    if n / d >= 0 {
      MultiplyMonotone(1, d, n / d);
      assert d * (n / d) == (n / d) * d;
    }
  }

  lemma DivideMonotone(x: int, y: int, d: int)
    requires d > 0 && x <= y
    ensures x / d <= y / d
  {
    DivisionEquation(x, d);
    DivisionEquation(y, d);
    Distribute(x / d, y / d, d);
    MultipleBound(x / d - y / d, d);
  }

  /** Distinct numbers less than `size` apart have distinct remainders. */
  lemma SlotsDistinct(i: int, j: int, size: int)
    requires size > 0 && i < j < i + size
    ensures i % size != j % size
  {
    DivisionEquation(i, size);
    DivisionEquation(j, size);
    Distribute(j / size, i / size, size);
    MultipleBound(j / size - i / size, size);
  }

  /** Equal remainders put numbers a whole multiple of `size` apart. */
  lemma SameSlot(i: int, j: int, size: int)
    requires size > 0 && i % size == j % size && i < j
    ensures j >= i + size
  {
    if j < i + size {
      SlotsDistinct(i, j, size);
    }
  }

  lemma NextSlot(i: nat, size: nat)
    requires size > 0
    ensures (i % size + 1) % size == (i + 1) % size
  {
    var q, r := i / size, i % size;
    DivisionEquation(i, size);
    Distribute(q, 1, size);
    if r + 1 < size {
      Quotient(i + 1, size, q, r + 1);
      Quotient(r + 1, size, 0, r + 1);
    } else {
      Quotient(i + 1, size, q + 1, 0);
    }
  }

  lemma PreviousLap(i: int, size: int)
    requires size > 0
    ensures (i - size) % size == i % size
  {
    DivisionEquation(i, size);
    Distribute(i / size, 1, size);
    Quotient(i - size, size, i / size - 1, i % size);
  }
}
