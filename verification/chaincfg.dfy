/** Money and subsidy constants and the issuance schedule. */
module ChainCfg {
  import opened Wire

  const COIN: int64 := 100_000_000
  const MAX_MONEY: int64 := 21_000_000 * COIN
  const COINBASE_MATURITY := 100
  const SUBSIDY: int64 := 50 * COIN
  const HALVING_INTERVAL := 210_000
  const TARGET_SPACING := 600
  const MAX_FUTURE_DRIFT := 7200

  predicate MoneyRange(v: int64) {
    0 <= v <= MAX_MONEY
  }

  /** `v >> n` for a non-negative v. */
  function ShiftRight(v: nat, n: nat): nat {
    if n == 0 then v else ShiftRight(v, n - 1) / 2
  }

  lemma {:induction false} ShiftRightShrinks(v: nat, n: nat)
    ensures ShiftRight(v, n) <= v
  {
    if n > 0 {
      ShiftRightShrinks(v, n - 1);
    }
  }

  function BlockSubsidy(height: int): (r: int64)
    ensures 0 <= r <= SUBSIDY
  {
    if height < 0 then 0
    else if height / HALVING_INTERVAL >= 64 then 0
    else
      ShiftRightShrinks(SUBSIDY as nat, height / HALVING_INTERVAL);
      ShiftRight(SUBSIDY as nat, height / HALVING_INTERVAL) as int64
  }

  /** Fifty coins at first, and half as much, rounded down, every 210,000 blocks. */
  lemma SubsidyHalves(height: nat)
    ensures height < 210_000 ==> BlockSubsidy(height) == 5_000_000_000
    ensures BlockSubsidy(height + 210_000) as int == BlockSubsidy(height) as int / 2
  {
    var era := height / HALVING_INTERVAL;
    assert (height + 210_000) / HALVING_INTERVAL == era + 1;
    assert ShiftRight(SUBSIDY as nat, 0) == 5_000_000_000;
    if era == 63 {
      ShiftedOut(SUBSIDY as nat, 63);
    }
  }

  function Pow2(n: nat): nat {
    if n == 0 then 1 else 2 * Pow2(n - 1)
  }

  lemma {:induction false} ShiftRightBound(v: nat, n: nat)
    ensures ShiftRight(v, n) * Pow2(n) <= v
  {
    if n > 0 {
      ShiftRightBound(v, n - 1);
      Halved(ShiftRight(v, n - 1), Pow2(n - 1));
    }
  }

  lemma Halved(q: nat, a: nat)
    ensures q / 2 * (2 * a) <= q * a
  {
    var half := q / 2;
    Times(2 * half, q, a);
    assert half * (2 * a) == 2 * half * a;
  }

  lemma Times(x: nat, y: nat, a: nat)
    requires x <= y
    ensures x * a <= y * a
  {
  }

  lemma {:induction false} Pow2Large(n: nat)
    requires n >= 33
    ensures Pow2(n) > 5_000_000_000
  {
    if n == 33 {
      assert Pow2(8) == 256 && Pow2(16) == 65536;
      assert Pow2(24) == 16_777_216;
      assert Pow2(32) == 4_294_967_296;
    } else {
      Pow2Large(n - 1);
    }
  }

  /** Shifted by 33 places or more, nothing of the first subsidy is left. */
  lemma ShiftedOut(v: nat, n: nat)
    requires v <= 5_000_000_000 && n >= 33
    ensures ShiftRight(v, n) == 0
  {
    ShiftRightBound(v, n);
    Pow2Large(n);
    if ShiftRight(v, n) >= 1 {
      Times(1, ShiftRight(v, n), Pow2(n));
    }
  }
}
