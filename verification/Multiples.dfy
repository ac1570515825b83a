/** That the blocks of the pool, which are counted off one by one in the model, start where the remainder is 0.
 */
module Multiples {
  import opened Division
  import opened HandlePool

  lemma ModLess(i: nat, m: nat)
    requires 0 < m <= i
    ensures (i - m) % m == i % m
  {
    DivModUnique(i, (i - m) / m + 1, (i - m) % m, m);
  }

  lemma {:induction false} BaseMod(i: nat, m: nat)
    requires m > 0
    ensures Base(i, m) <==> i % m == 0
    decreases i
  {
    if i >= m {
      BaseMod(i - m, m);
      ModLess(i, m);
    }
  }
}
