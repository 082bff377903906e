/** Facts about products and quotients, and the size of a 32-bit number. */
module Arithmetic {

  const U32: nat := 0x1_0000_0000

  lemma DivMod(i: nat, k: nat)
    requires k > 0
    ensures i == (i / k) * k + i % k && 0 <= i % k < k
  {
  }

  lemma Scale(a: nat, b: nat, k: nat)
    requires a <= b
    ensures a * k <= b * k
  {
  }

  lemma Distribute(a: nat, k: nat)
    ensures (a + 1) * k == a * k + k
  {
  }

  lemma DistributeSum(a: nat, b: nat, k: nat)
    ensures (a + b) * k == a * k + b * k && k * (a + b) == k * a + k * b
  {
  }
}
