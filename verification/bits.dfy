/**
 The bits of a number.
 */
module Bits {
  predicate Bit(n: nat, i: nat) {
    if i == 0 then n % 2 == 1 else Bit(n / 2, i - 1)
  }

  ghost predicate SameBits(m: nat, n: nat) {
    forall i: nat :: Bit(m, i) <==> Bit(n, i)
  }

  /** A number is determined by its bits. */
  lemma {:induction false} BitsDetermine(m: nat, n: nat)
    requires SameBits(m, n)
    ensures m == n
    decreases m + n
  {
    assert Bit(m, 0) <==> Bit(n, 0);
    if m + n > 0 {
      forall i: nat ensures Bit(m / 2, i) <==> Bit(n / 2, i) {
        assert Bit(m, i + 1) <==> Bit(n, i + 1);
      }
      BitsDetermine(m / 2, n / 2);
    }
  }
}
