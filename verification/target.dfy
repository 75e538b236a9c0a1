/** Compact targets, the difficulty average and per-block work. */
module Consensus {
  import opened Wire

  const DGW_PAST_BLOCKS := 24
  const TWO_TO_256: int := 0x1_0000000000000000_0000000000000000_0000000000000000_0000000000000000
  const POW_LIMIT: int := TWO_TO_256 / 2 - 1

  const SIGN_BIT := 0x80_0000
  const MANTISSA := 0x100_0000

  datatype BlockWindowEntry = BlockWindowEntry(height: int, time: uint32, bits: uint32)

  function Pow256(n: nat): (r: nat)
    ensures r > 0
  {
    if n == 0 then 1 else 256 * Pow256(n - 1)
  }

  /** A compact target: one size byte, a sign bit and a 23-bit mantissa. */
  function CompactToBig(compact: uint32): int {
    var size := compact / MANTISSA;
    var word := compact % SIGN_BIT;
    var magnitude := if size <= 3 then word / Pow256(3 - size) else word * Pow256(size - 3);
    if compact / SIGN_BIT % 2 == 1 then -magnitude else magnitude
  }

  function ByteLen(n: nat): nat {
    if n == 0 then 0 else 1 + ByteLen(n / 256)
  }

  /** The three leading bytes of n. */
  function Leading(n: nat): int {
    var size := ByteLen(n);
    if size <= 3 then n * Pow256(3 - size) else n / Pow256(size - 3)
  }

  lemma {:induction false} ByteLenBounds(n: nat)
    requires n > 0
    ensures ByteLen(n) >= 1
    ensures Pow256(ByteLen(n) - 1) <= n < Pow256(ByteLen(n))
  {
    if n >= 256 {
      ByteLenBounds(n / 256);
      var k := ByteLen(n / 256);
      assert Pow256(k) == 256 * Pow256(k - 1) && Pow256(k + 1) == 256 * Pow256(k);
    } else {
      assert ByteLen(n / 256) == 0 && Pow256(1) == 256 * Pow256(0);
    }
  }

  lemma {:induction false} PowSplit(a: nat, b: nat)
    ensures Pow256(a + b) == Pow256(a) * Pow256(b)
  {
    if a > 0 {
      PowSplit(a - 1, b);
      assert Pow256(a + b) == 256 * Pow256(a - 1 + b);
      assert Pow256(a) * Pow256(b) == 256 * (Pow256(a - 1) * Pow256(b));
    } else {
      assert Pow256(0) * Pow256(b) == Pow256(b);
    }
  }

  lemma DivBounds(n: nat, d: nat, lo: nat, hi: nat)
    requires d > 0 && lo * d <= n < hi * d
    ensures lo <= n / d < hi
  {
    var q := n / d;
    assert q * d <= n < (q + 1) * d;
    assert q < lo ==> (q + 1) * d <= lo * d;
    assert q >= hi ==> hi * d <= q * d;
  }

  lemma LeadingBounds(n: nat)
    requires n > 0
    ensures 0x1_0000 <= Leading(n) < MANTISSA
  {
    var size := ByteLen(n);
    ByteLenBounds(n);
    Powers();
    if size <= 3 {
      assert size == 1 || size == 2 || size == 3;
    } else {
      PowSplit(size - 3, 2);
      PowSplit(size - 3, 3);
      DivBounds(n, Pow256(size - 3), 0x1_0000, 0x100_0000);
    }
  }

  lemma Powers()
    ensures Pow256(0) == 1 && Pow256(1) == 0x100 && Pow256(2) == 0x1_0000 && Pow256(3) == 0x100_0000
  {
    assert Pow256(1) == 256 * Pow256(0);
    assert Pow256(2) == 256 * Pow256(1);
    assert Pow256(3) == 256 * Pow256(2);
  }

  function BigToCompact(n: int): uint32 {
    if n == 0 then 0
    else
      var magnitude: nat := if n < 0 then -n else n;
      LeadingBounds(magnitude);
      var lead, size := Leading(magnitude), ByteLen(magnitude);
      var word := if lead >= SIGN_BIT then lead / 256 else lead;
      var bytes := if lead >= SIGN_BIT then size + 1 else size;
      word + (bytes % 256) * MANTISSA + if n < 0 && word != 0 then SIGN_BIT else 0
  }

  function WorkForBits(bits: uint32): nat {
    var target := CompactToBig(bits);
    if target <= 0 || target > POW_LIMIT then 0 else TWO_TO_256 / (target + 1)
  }

  predicate CheckProofOfWork(value: nat, bits: uint32) {
    var target := CompactToBig(bits);
    0 < target <= POW_LIMIT && value <= target
  }

  /** Every block that passes the work check adds at least two units of work. */
  lemma WorkAtLeastTwo(value: nat, bits: uint32)
    requires CheckProofOfWork(value, bits)
    ensures WorkForBits(bits) >= 2
  {
    var target := CompactToBig(bits);
    assert 2 * (target + 1) <= TWO_TO_256;
    DivBounds(TWO_TO_256, target + 1, 2, TWO_TO_256 + 1);
  }

  // ----- DarkGravityWave v3 -----

  /** Non-positive and too easy targets count as the limit. */
  function ClampedTarget(bits: uint32, limit: nat): (r: nat)
    requires limit > 0
    ensures 0 < r <= limit
  {
    var target := CompactToBig(bits);
    if target <= 0 || target > limit then limit else target
  }

  /** The running average after `count` entries: each step moves by a floored fraction. */
  function RunningAverage(recent: seq<BlockWindowEntry>, count: nat, limit: nat): int
    requires 1 <= count <= |recent| && limit > 0
  {
    var target := ClampedTarget(recent[count - 1].bits, limit);
    if count == 1 then target
    else
      var prev := RunningAverage(recent, count - 1, limit);
      prev + (target - prev) / count
  }

  function ClampedTimespan(recent: seq<BlockWindowEntry>, spacing: nat): int
    requires |recent| >= DGW_PAST_BLOCKS
  {
    var actual := recent[0].time - recent[DGW_PAST_BLOCKS - 1].time;
    var target := DGW_PAST_BLOCKS * spacing;
    var floored := if actual < target / 3 then target / 3 else actual;
    if floored > target * 3 then target * 3 else floored
  }

  function NextTarget(recent: seq<BlockWindowEntry>, spacing: nat, limit: nat): int
    requires |recent| >= DGW_PAST_BLOCKS && spacing > 0 && limit > 0
  {
    var next := RunningAverage(recent, DGW_PAST_BLOCKS, limit) * ClampedTimespan(recent, spacing) / (DGW_PAST_BLOCKS * spacing);
    if next > limit then limit else next
  }

  function DarkGravityWave(recent: seq<BlockWindowEntry>, spacing: int, limit: nat, limitBits: uint32): uint32
    requires limit > 0
  {
    if |recent| < DGW_PAST_BLOCKS || spacing <= 0 then limitBits
    else BigToCompact(NextTarget(recent, spacing, limit))
  }

  /** The averaging loop over the 24 most recent blocks. */
  method DarkGravityWaveV3(recent: seq<BlockWindowEntry>, spacing: int, limit: nat, limitBits: uint32) returns (bits: uint32)
    requires limit > 0
    ensures bits == DarkGravityWave(recent, spacing, limit, limitBits)
  {
    if |recent| < DGW_PAST_BLOCKS || spacing <= 0 {
      return limitBits;
    }
    var average, averagePrev := 0, 0;
    var count := 1;
    while count <= DGW_PAST_BLOCKS
      invariant 1 <= count <= DGW_PAST_BLOCKS + 1
      invariant count > 1 ==> average == averagePrev == RunningAverage(recent, count - 1, limit)
    {
      var target := CompactToBig(recent[count - 1].bits);
      if target <= 0 || target > limit {
        target := limit;
      }
      if count == 1 {
        average := target;
      } else {
        var delta := target - averagePrev;
        delta := delta / count;
        average := averagePrev + delta;
      }
      averagePrev := average;
      count := count + 1;
    }
    var actual := recent[0].time - recent[DGW_PAST_BLOCKS - 1].time;
    var target := DGW_PAST_BLOCKS * spacing;
    if actual < target / 3 {
      actual := target / 3;
    }
    if actual > target * 3 {
      actual := target * 3;
    }
    var next := average * actual / target;
    if next > limit {
      next := limit;
    }
    bits := BigToCompact(next);
  }
}
