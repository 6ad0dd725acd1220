/** Time and powers of two, as the delays and the one-time codes use them. */
module Units {
  /** Instants are microseconds since 1970, never before it. */
  type Time = nat

  const SECOND := 1_000_000

  function Power(n: nat): nat {
    if n == 0 then 1 else 2 * Power(n - 1)
  }

  lemma Powers()
    ensures Power(0) == 1 && Power(1) == 2 && Power(2) == 4 && Power(3) == 8 && Power(4) == 16 && Power(5) == 32
  {
    assert Power(5) == 2 * Power(4) && Power(4) == 2 * Power(3) && Power(3) == 2 * Power(2) && Power(2) == 2 * Power(1);
  }
}
