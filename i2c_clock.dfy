/** Bit-rate generator arithmetic of the I2C library (I2Clib.h): the
    peripheral bus clock, the requested serial clock and the reload value,
    checked against the 400 kHz ceiling of Fast-mode (NXP UM10204). */
module I2CClock {

  const CCLK: nat := 80000000
  const PBCLK: nat := CCLK / 8
  const FSCK: nat := 357000
  const BRG_VAL: nat := PBCLK / 2 / FSCK

  /** Fast-mode ceiling of the serial clock. */
  const FAST_MODE_MAX: nat := 400000

  /** Serial clock the generator produces for a reload value. */
  function BitRate(pbclk: nat, brg: nat): (rate: int)
    requires brg > 0
  {
    var divisor: nat := 2 * brg;
    pbclk / divisor
  }

  lemma ClockConstants()
    ensures PBCLK == 10000000
    ensures FSCK < FAST_MODE_MAX
    ensures BRG_VAL == 14
  {
  }

  /** The reload value is computed with truncating division, which can only
      raise the produced rate above the requested one, never lower it. */
  lemma TruncationRaisesRate(pbclk: nat, fsck: nat)
    requires fsck > 0 && pbclk / 2 / fsck > 0
    ensures BitRate(pbclk, pbclk / 2 / fsck) >= fsck
  {
    var half := pbclk / 2;
    var brg := half / fsck;
    assert brg * fsck <= half;
    assert 2 * brg * fsck <= pbclk;
    DivLowerBound(pbclk, 2 * brg, fsck);
  }

  /** If d * q <= n then q <= n / d. */
  lemma DivLowerBound(n: nat, d: nat, q: nat)
    requires d > 0 && d * q <= n
    ensures n / d >= q
  {
    var r, m := n / d, n % d;
    assert n == d * r + m && m < d;
    if r < q {
      MulMonotone(d, r + 1, q);
      assert false;
    }
  }

  lemma MulMonotone(a: nat, b: nat, c: nat)
    requires b <= c
    ensures a * b <= a * c
  {
    var k: nat := c - b;
    assert a * c == a * b + a * k;
  }

  /** Despite the truncation, the configured rate stays within Fast-mode. */
  lemma ConfiguredRateWithinFastMode()
    ensures BitRate(PBCLK, BRG_VAL) == 357142
    ensures FSCK <= BitRate(PBCLK, BRG_VAL) < FAST_MODE_MAX
  {
    ClockConstants();
  }
}
