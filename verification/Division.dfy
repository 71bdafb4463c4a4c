/** Integer division by a variable divisor, which the solver does not reason about unaided. */
module Division {
  /** `ceil(n / d)`. */
  function Ceiling(n: nat, d: nat): nat
    requires d > 0
  {
    (n + d - 1) / d
  }

  lemma CeilingStep(n: nat, d: nat)
    requires 0 < d < n
    ensures Ceiling(n, d) == 1 + Ceiling(n - d, d)
  {
    assert n + d - 1 == (n - d + d - 1) + d;
    DivisionStep(n - d + d - 1, d);
  }

  lemma DivisionStep(n: nat, d: nat)
    requires d > 0
    ensures (n + d) / d == n / d + 1 && (n + d) % d == n % d
  {
    var q, r := n / d, n % d;
    assert n + d == (q + 1) * d + r;
    QuotientIsUnique(n + d, d, q + 1, r);
  }

  lemma QuotientIsUnique(n: nat, d: nat, q: nat, r: nat)
    requires d > 0 && r < d && n == q * d + r
    ensures n / d == q && n % d == r
  {
    Unique(d, q, r, n / d, n % d);
  }

  lemma Unique(d: nat, q: nat, r: nat, q': int, r': nat)
    requires d > 0 && r < d && r' < d && q * d + r == q' * d + r'
    ensures q == q' && r == r'
  {
    if q > q' {
      Apart(q', q, d);
    } else if q < q' {
      Apart(q, q', d);
    }
  }

  lemma {:induction false} Apart(a: int, b: int, d: nat)
    requires a < b
    ensures a * d + d <= b * d
    decreases b - a
  {
    assert b * d == (b - 1) * d + d;
    if a < b - 1 {
      Apart(a, b - 1, d);
    }
  }

  lemma CeilingOfOne(n: nat, d: nat)
    requires 0 < n <= d
    ensures Ceiling(n, d) == 1
  {
    QuotientIsUnique(n + d - 1, d, 1, n - 1);
  }
}
