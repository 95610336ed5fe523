/**
 * Powers of two, shared by the field arithmetic of the Reed-Solomon code and
 * by the two's complement reading of telemetry fields.
 */
module Powers {
  /** 2^n. */
  function Pow2(n: nat): (p: nat)
    ensures p >= 1
  {
    if n == 0 then 1 else 2 * Pow2(n - 1)
  }

  /** 2^n grows with n. */
  lemma {:induction false} Pow2Mono(n: nat, k: nat)
    requires n <= k
    ensures Pow2(n) <= Pow2(k)
    decreases k - n
  {
    if n < k {
      Pow2Mono(n, k - 1);
    }
  }
}
