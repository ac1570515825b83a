/** Quotients and remainders are unique.
 */
module Division {
  lemma Apart(x: nat, q: nat, m: nat)
    requires x < q
    ensures x * m + m <= q * m
  {
    assert (q - x - 1) * m >= 0;
    assert q * m == (q - x - 1) * m + (x + 1) * m;
  }

  lemma DivModUnique(a: nat, x: nat, y: nat, m: nat)
    requires y < m && a == x * m + y
    ensures a % m == y && a / m == x
  {
    var q, r := a / m, a % m;
    assert a == q * m + r;
    if x < q {
      Apart(x, q, m);
    } else if q < x {
      Apart(q, x, m);
    }
  }
}
