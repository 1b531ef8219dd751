/** Ascending sequences, and facts about products and quotients that the solver does not find alone. */
module Integers {
  predicate StrictlySorted(ns: seq<int>) {
    forall i, j | 0 <= i < j < |ns| :: ns[i] < ns[j]
  }

  lemma DivisionBounds(a: int, b: nat)
    requires b > 0
    ensures b * (a / b) <= a < b * (a / b) + b
  {
  }

  lemma ProductGrows(m: nat, a: int, b: int)
    requires a <= b
    ensures m * a <= m * b
  {
    var d: nat := b - a;
    assert m * d >= 0;
    assert m * b == m * a + m * d;
  }

  lemma QuotientIs(a: int, b: nat, q: int, rest: int)
    requires a == b * q + rest && 0 <= rest < b
    ensures a / b == q && a % b == rest
  {
    DivisionBounds(a, b);
    var p := a / b;
    if p < q {
      ProductGrows(b, p + 1, q);
    } else if q < p {
      ProductGrows(b, q + 1, p);
    }
  }

  lemma MultipleOf(k: int, m: nat)
    requires m > 0
    ensures (k * m) % m == 0
  {
    QuotientIs(k * m, m, k, 0);
  }

  lemma MultiplesApart(a: int, b: int, m: nat)
    requires m > 0 && a % m == 0 && b % m == 0 && a < b
    ensures a + m <= b
  {
    var p, q := a / m, b / m;
    assert a == m * p && b == m * q;
    if p >= q {
      ProductGrows(m, q, p);
    } else {
      ProductGrows(m, p + 1, q);
      assert m * (p + 1) == m * p + m;
    }
  }
}
