/** Bounds on integer quotients. */
module Division {
  lemma Times(d: nat, a: int, b: int)
    requires a <= b
    ensures d * a <= d * b
  {
    assert d * (b - a) >= 0;
    assert d * (b - a) == d * b - d * a;
  }

  lemma QuotientBelow(x: nat, q: nat, d: nat)
    requires d > 0 && x < d * (q + 1)
    ensures x / d <= q
  {
    if x / d >= q + 1 {
      Times(d, q + 1, x / d);
    }
  }

  lemma QuotientAbove(x: nat, q: nat, d: nat)
    requires d > 0 && d * q <= x
    ensures q <= x / d
  {
    if x / d <= q - 1 {
      Times(d, x / d + 1, q);
    }
  }

  lemma QuotientMono(x: nat, y: nat, d: nat)
    requires d > 0 && x <= y
    ensures x / d <= y / d
  {
    QuotientAbove(y, x / d, d);
  }
}
