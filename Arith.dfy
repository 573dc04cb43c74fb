/** Facts about Euclidean division and remainder by a positive modulus. */
module Arith {

  lemma {:induction false} MulAtLeast(m: int, k: int)
    requires m > 0 && k >= 1
    ensures m * k >= m
  {
  }

  /** Quotient and remainder are determined by `a == m * q + r` with `0 <= r < m`. */
  lemma {:induction false} DivModUnique(a: int, m: int, q: int, r: int)
    requires m > 0 && 0 <= r < m && a == m * q + r
    ensures a % m == r && a / m == q
  {
    var q0, r0 := a / m, a % m;
    assert m * q0 + r0 == a;
    var k := q0 - q;
    assert m * k == r - r0 by {
      assert m * q0 - m * q == m * (q0 - q);
    }
    if k >= 1 {
      MulAtLeast(m, k);
    } else if k <= -1 {
      MulAtLeast(m, -k);
    }
  }

  /** Adding to a reduced value reduces like adding to the value itself. */
  lemma {:induction false} ModAdd(a: int, b: int, m: int)
    requires m > 0
    ensures (a % m + b) % m == (a + b) % m
  {
    var q1, r1 := a / m, a % m;
    var q2, r2 := (r1 + b) / m, (r1 + b) % m;
    assert r1 + b == m * q2 + r2;
    assert a + b == m * (q1 + q2) + r2 by {
      assert m * q1 + m * q2 == m * (q1 + q2);
    }
    DivModUnique(a + b, m, q1 + q2, r2);
  }

  /** Stepping a residue of `t * x` by `x` gives the residue of `(t + 1) * x`. */
  lemma {:induction false} ModStep(t: int, x: int, m: int)
    requires m > 0
    ensures ((t * x) % m + x) % m == ((t + 1) * x) % m
  {
    ModAdd(t * x, x, m);
    assert t * x + x == (t + 1) * x;
  }

  /** Two shifts that differ by less than the modulus never land on the same residue. */
  lemma {:induction false} ModDistinctShift(a: int, d1: int, d2: int, m: int)
    requires m > 0 && 0 <= d1 < d2 && d2 - d1 < m
    ensures (a + d1) % m != (a + d2) % m
  {
    var r := (a + d1) % m;
    ModAdd(a + d1, d2 - d1, m);
    assert a + d1 + (d2 - d1) == a + d2;
    var x := r + (d2 - d1);
    if x < m {
      DivModUnique(x, m, 0, x);
    } else {
      DivModUnique(x, m, 1, x - m);
    }
  }
}
