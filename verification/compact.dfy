/** What the compact encoding and the difficulty average compute. */
module Targets {
  import opened Wire
  import opened Consensus

  // ----- Powers of 256 -----

  lemma {:induction false} PowMonotone(a: nat, b: nat)
    requires a <= b
    ensures Pow256(a) <= Pow256(b)
    decreases b
  {
    if a < b {
      PowMonotone(a, b - 1);
    }
  }

  lemma Pow32()
    ensures Pow256(32) == TWO_TO_256
  {
    Powers();
    PowSplit(2, 2);
    PowSplit(4, 4);
    PowSplit(8, 8);
    PowSplit(16, 16);
  }

  lemma SizeBound(n: nat)
    requires 0 < n < TWO_TO_256
    ensures ByteLen(n) <= 32 && SizeByte(n) <= 33
  {
    ByteLenBounds(n);
    hide BigToCompact, CompactToBig, Leading;
    if ByteLen(n) > 32 {
      PowMonotone(32, ByteLen(n) - 1);
      Pow32();
    }
  }

  lemma {:induction false} ByteLenIs(n: nat, k: nat)
    requires k > 0 && Pow256(k - 1) <= n < Pow256(k)
    ensures ByteLen(n) == k
  {
    ByteLenBounds(n);
    var len := ByteLen(n);
    if len < k {
      PowMonotone(len, k - 1);
    } else if len > k {
      PowMonotone(k, len - 1);
    }
  }

  lemma DivMul(m: nat, u: nat)
    requires u > 0
    ensures m * u / u == m
  {
    assert m * u >= 0;
    DivBounds(m * u, u, m, m + 1);
  }

  lemma DivFact(n: nat, d: nat)
    requires d > 0
    ensures n / d >= 0 && n / d * d <= n < (n / d + 1) * d
  {
    var q := n / d;
    assert n == q * d + n % d;
    assert (q + 1) * d == q * d + d;
  }

  lemma Regroup(q: int, a: int, b: int)
    ensures q * b * a == q * (a * b)
  {
  }

  lemma DivDiv(n: nat, a: nat, b: nat)
    requires a > 0 && b > 0
    ensures a * b > 0 && n / a / b == n / (a * b)
  {
    var p := n / a;
    DivFact(n, a);
    DivFact(p, b);
    var q := p / b;
    MulLe(q * b, p, a);
    MulLe(p + 1, (q + 1) * b, a);
    Regroup(q, a, b);
    Regroup(q + 1, a, b);
    MulLe(1, b, a);
    DivWithin(n, a, b, q);
  }

  lemma DivWithin(n: nat, a: nat, b: nat, q: nat)
    requires a > 0 && b > 0 && a * b > 0 && q * (a * b) <= n < (q + 1) * (a * b)
    ensures q == n / (a * b)
  {
    DivBounds(n, a * b, q, q + 1);
  }

  lemma MulLe(x: int, y: int, a: nat)
    requires x <= y
    ensures x * a <= y * a
  {
  }

  // ----- What encoding keeps -----

  /** The size byte of the encoding: one more than the byte length when the leading byte would
    reach into the sign bit. */
  function SizeByte(n: nat): nat {
    if Leading(n) >= SIGN_BIT then ByteLen(n) + 1 else ByteLen(n)
  }

  /** How many low bytes encoding drops. */
  function Dropped(n: nat): nat {
    if SizeByte(n) <= 3 then 0 else SizeByte(n) - 3
  }

  lemma EncodedParts(n: nat)
    requires 0 < n && SizeByte(n) <= 255
    ensures var word := if Leading(n) >= SIGN_BIT then Leading(n) / 256 else Leading(n);
      && 0x8000 <= word < SIGN_BIT
      && BigToCompact(n) == word + SizeByte(n) * MANTISSA
      && 1 <= SizeByte(n) <= 255
  {
    LeadingBounds(n);
    assert ByteLen(n) >= 1;
    hide Leading, ByteLen, Pow256;
    WordBounds(Leading(n));
    assert SizeByte(n) % 256 == SizeByte(n);
  }

  lemma WordBounds(lead: int)
    requires 0x1_0000 <= lead < MANTISSA
    ensures var word := if lead >= SIGN_BIT then lead / 256 else lead;
      0x8000 <= word < SIGN_BIT
  {
  }

  lemma DecodeParts(word: nat, size: nat)
    requires word < SIGN_BIT && size <= 255
    ensures word + size * MANTISSA < 0x1_0000_0000
    ensures CompactToBig(word + size * MANTISSA)
         == if size <= 3 then word / Pow256(3 - size) else word * Pow256(size - 3)
  {
    var c := word + size * MANTISSA;
    assert c / MANTISSA == size && c % SIGN_BIT == word && c / SIGN_BIT == 2 * size;
    hide Pow256;
  }

  /** Decoding an encoding floors to a multiple of a power of 256, keeping 16 to 23 bits. */
  lemma Kept(n: nat)
    requires 0 < n && SizeByte(n) <= 255
    ensures var u := Pow256(Dropped(n));
      && CompactToBig(BigToCompact(n)) == n / u * u
      && n / u < SIGN_BIT
      && (Dropped(n) > 0 ==> n / u >= 0x8000)
  {
    EncodedParts(n);
    DecodeParts(if Leading(n) >= SIGN_BIT then Leading(n) / 256 else Leading(n), SizeByte(n));
    hide CompactToBig, BigToCompact, ByteLen, Leading, SizeByte, Pow256;
    if SizeByte(n) <= 3 {
      KeptSmall(n);
    } else {
      KeptLarge(n);
    }
  }

  lemma KeptLarge(n: nat)
    requires 0 < n && SizeByte(n) > 3
    ensures Dropped(n) == SizeByte(n) - 3
    ensures n / Pow256(Dropped(n)) == if Leading(n) >= SIGN_BIT then Leading(n) / 256 else Leading(n)
  {
    var size := ByteLen(n);
    Powers();
    hide CompactToBig, BigToCompact, ByteLen;
    if Leading(n) >= SIGN_BIT {
      assert Leading(n) == n / Pow256(size - 3);
      assert Pow256(size - 2) == Pow256(size - 3) * 256;
      hide Pow256, Leading;
      DivDiv(n, Pow256(size - 3), 256);
    }
  }

  lemma KeptSmall(n: nat)
    requires 0 < n && SizeByte(n) <= 3
    ensures var u := Pow256(Dropped(n));
      n / u * u == n && n < SIGN_BIT && Dropped(n) == 0
    ensures var word := if Leading(n) >= SIGN_BIT then Leading(n) / 256 else Leading(n);
      word / Pow256(3 - SizeByte(n)) == n
  {
    ByteLenBounds(n);
    Powers();
    hide BigToCompact, CompactToBig;
  }

  /** Rounding through the compact form loses less than one part in 2^15, and only downwards. */
  lemma CompactRounds(n: nat)
    requires 0 < n < TWO_TO_256
    ensures var d := CompactToBig(BigToCompact(n));
      0 < d <= n && (n - d) * 0x8000 < n
  {
    SizeBound(n);
    Kept(n);
    hide *;
    FloorBounds(n, Pow256(Dropped(n)), Dropped(n) > 0);
    if Dropped(n) == 0 {
      NoneDropped(n);
    }
  }

  lemma NoneDropped(n: nat)
    requires Dropped(n) == 0
    ensures n / Pow256(Dropped(n)) * Pow256(Dropped(n)) == n
  {
    hide Dropped;
  }

  lemma FloorBounds(n: nat, u: nat, big: bool)
    requires n > 0 && u > 0 && (big ==> n / u >= 0x8000)
    ensures n / u * u <= n
    ensures big ==> 0 < n / u * u && (n - n / u * u) * 0x8000 < n
  {
    var q := n / u;
    assert n == q * u + n % u;
    if big {
      MulLe(0x8000, q, u);
      assert (n % u) * 0x8000 < u * 0x8000;
    }
  }

  /** A larger target never decodes smaller. */
  lemma CompactMonotone(m: nat, n: nat)
    requires 0 < m <= n < TWO_TO_256
    ensures CompactToBig(BigToCompact(m)) <= CompactToBig(BigToCompact(n))
  {
    SizeBound(m);
    SizeBound(n);
    Kept(m);
    Kept(n);
    hide *;
    FloorMonotone(m, n, Dropped(m), Dropped(n));
  }

  lemma FloorMonotone(m: nat, n: nat, a: nat, b: nat)
    requires m <= n && m / Pow256(a) < SIGN_BIT && n / Pow256(b) < SIGN_BIT
    requires (a > 0 ==> m / Pow256(a) >= 0x8000) && (b > 0 ==> n / Pow256(b) >= 0x8000)
    ensures m / Pow256(a) * Pow256(a) <= n / Pow256(b) * Pow256(b)
  {
    hide Pow256;
    var u, v := Pow256(a), Pow256(b);
    DivFact(m, u);
    DivFact(n, v);
    FloorOrder(m, n, m / u, n / v, a, b);
  }

  lemma FloorOrder(m: nat, n: nat, p: nat, q: nat, a: nat, b: nat)
    requires m <= n && p < SIGN_BIT && q < SIGN_BIT
    requires p * Pow256(a) <= m < (p + 1) * Pow256(a) && q * Pow256(b) <= n < (q + 1) * Pow256(b)
    requires (a > 0 ==> p >= 0x8000) && (b > 0 ==> q >= 0x8000)
    ensures p * Pow256(a) <= q * Pow256(b)
  {
    hide Pow256;
    var u, v := Pow256(a), Pow256(b);
    if a == b {
      if q < p {
        MulLe(q + 1, p, u);
      }
      MulLe(p, q, u);
    } else if a < b {
      Wider(a, b);
      FarBelow(p, q, u, v);
    } else {
      Wider(b, a);
      FarBelow(q, p, v, u);
    }
  }

  lemma Wider(a: nat, b: nat)
    requires a < b
    ensures Pow256(b) >= 256 * Pow256(a)
  {
    PowMonotone(a + 1, b);
  }

  /** A mantissa of at least 16 bits at a higher power outweighs one of 23 bits below. */
  lemma FarBelow(p: nat, q: nat, u: nat, v: nat)
    requires p < SIGN_BIT && q >= 0x8000 && v >= 256 * u
    ensures (p + 1) * u <= q * v && p * u <= q * v
  {
    MulLe(p + 1, SIGN_BIT, u);
    MulLe(p, p + 1, u);
    MulLe(0x8000, q, v);
  }

  // ----- Canonical compacts -----

  /** A non-negative compact with no shorter spelling: the mantissa keeps at least 16 bits, and
    a size below three leaves the unused low bytes zero. */
  predicate Canonical(c: uint32) {
    var size, word := c / MANTISSA, c % MANTISSA;
    c == 0 || (0x8000 <= word < SIGN_BIT && size > 0 && (size < 3 ==> word % Pow256(3 - size) == 0))
  }

  lemma EncodingIsCanonical(n: nat)
    requires SizeByte(n) <= 255
    ensures Canonical(BigToCompact(n))
  {
    if n > 0 {
      EncodedParts(n);
      Powers();
      ByteLenBounds(n);
      hide BigToCompact, CompactToBig, ByteLen;
      var word, size := if Leading(n) >= SIGN_BIT then Leading(n) / 256 else Leading(n), SizeByte(n);
      assert (word + size * MANTISSA) / MANTISSA == size && (word + size * MANTISSA) % MANTISSA == word;
      if size == 1 {
        assert word == n * 0x1_0000;
      } else if size == 2 {
        assert word == n * 0x100;
      }
    }
  }

  /** The number a canonical mantissa and size stand for is spelled by just that pair. */
  lemma SpelledBy(n: nat, word: nat, size: nat)
    requires 0x8000 <= word < SIGN_BIT && 1 <= size <= 255
    requires if size <= 3 then n * Pow256(3 - size) == word else n == word * Pow256(size - 3)
    ensures n > 0 && ByteLen(n) < 256 && BigToCompact(n) == word + size * MANTISSA
  {
    Powers();
    if word >= 0x1_0000 {
      SpelledWide(n, word, size);
    } else {
      SpelledNarrow(n, word, size);
    }
    hide ByteLen, Leading, Pow256;
  }

  lemma SpelledWide(n: nat, word: nat, size: nat)
    requires 0x1_0000 <= word < SIGN_BIT && 1 <= size <= 255
    requires if size <= 3 then n * Pow256(3 - size) == word else n == word * Pow256(size - 3)
    ensures n > 0 && ByteLen(n) == size && Leading(n) == word
  {
    Powers();
    if size <= 3 {
      ByteLenIs(n, size);
    } else {
      var u := Pow256(size - 3);
      assert Pow256(size - 1) == 0x1_0000 * u && Pow256(size) == 0x100_0000 * u;
      MulLe(0x1_0000, word, u);
      MulLe(word + 1, 0x100_0000, u);
      ByteLenIs(n, size);
      DivMul(word, u);
    }
  }

  lemma SpelledNarrow(n: nat, word: nat, size: nat)
    requires 0x8000 <= word < 0x1_0000 && 1 <= size <= 255
    requires if size <= 3 then n * Pow256(3 - size) == word else n == word * Pow256(size - 3)
    ensures n > 0 && size > 1 && ByteLen(n) == size - 1 && Leading(n) == word * 256
  {
    Powers();
    if size <= 3 {
      assert size > 1;
      ByteLenIs(n, size - 1);
    } else {
      var u := Pow256(size - 4);
      PowersAbove(size);
      hide *;
      Regroup(word, u, 256);
      NarrowFits(n, word, u);
      ByteLenIs(n, size - 1);
      LeadingNarrow(n, word, size);
    }
  }

  lemma PowersAbove(size: nat)
    requires size >= 4
    ensures var u := Pow256(size - 4);
      u > 0 && Pow256(size - 3) == 256 * u && Pow256(size - 2) == 0x1_0000 * u && Pow256(size - 1) == 0x100_0000 * u
  {
    assert Pow256(size - 2) == 256 * Pow256(size - 3);
    assert Pow256(size - 1) == 256 * Pow256(size - 2);
  }

  lemma NarrowFits(n: nat, word: nat, u: nat)
    requires 0x8000 <= word < 0x1_0000 && u > 0 && n == word * 256 * u
    ensures 0x1_0000 * u <= n < 0x100_0000 * u && n > 0
  {
    MulLe(0x1_0000, word * 256, u);
    MulLe(word * 256 + 1, 0x100_0000, u);
    assert (word * 256 + 1) * u == word * 256 * u + u;
  }

  lemma LeadingNarrow(n: nat, word: nat, size: nat)
    requires size > 3 && ByteLen(n) == size - 1 && n == word * 256 * Pow256(size - 4)
    ensures Leading(n) == word * 256
  {
    Powers();
    DivMul(word * 256, Pow256(size - 4));
    hide ByteLen;
  }

  /** Re-encoding a decoded compact gives it back exactly when it is canonical. */
  lemma CanonicalIffFixed(c: uint32)
    requires c / SIGN_BIT % 2 == 0
    ensures CompactToBig(c) >= 0
    ensures BigToCompact(CompactToBig(c)) == c <==> Canonical(c)
  {
    var size, word := c / MANTISSA, c % MANTISSA;
    assert word < SIGN_BIT && c == word + size * MANTISSA;
    DecodeParts(word, size);
    var n := CompactToBig(c);
    DecodedSize(word, size);
    if Canonical(c) && c > 0 {
      if size < 3 {
        DivExact(word, Pow256(3 - size));
      }
      hide CompactToBig, BigToCompact, ByteLen, Leading;
      SpelledBy(n, word, size);
    } else if !Canonical(c) {
      hide CompactToBig, BigToCompact, ByteLen, Leading;
      EncodingIsCanonical(n);
    }
  }

  /** Decoding never needs a size byte past the one it came from. */
  lemma DecodedSize(word: nat, size: nat)
    requires word < SIGN_BIT && size <= 255
    ensures var n := if size <= 3 then word / Pow256(3 - size) else word * Pow256(size - 3);
      n >= 0 && SizeByte(n) <= 255
  {
    Powers();
    if size <= 3 {
      var n := word / Pow256(3 - size);
      assert n <= word;
      if n > 0 {
        ByteLenBounds(n);
        if ByteLen(n) > 3 {
          PowMonotone(3, ByteLen(n) - 1);
        }
      }
    } else {
      var u := Pow256(size - 3);
      var n := word * u;
      MulLe(0, word, u);
      MulLe(word, SIGN_BIT, u);
      if n > 0 {
        DecodedLong(n, word, size);
      }
    }
  }

  lemma DecodedLong(n: nat, word: nat, size: nat)
    requires 3 < size <= 255 && word < SIGN_BIT && n > 0 && n == word * Pow256(size - 3)
    ensures SizeByte(n) <= 255
  {
    hide *;
    BelowPower(n, word, size);
    ByteLenBounds(n);
    if ByteLen(n) > size {
      PowMonotone(size, ByteLen(n) - 1);
    } else if ByteLen(n) == size {
      DivMul(word, Pow256(size - 3));
      LeadingLong(n);
    }
    SizeByteAtMost(n, size);
  }

  lemma BelowPower(n: nat, word: nat, size: nat)
    requires size > 3 && word < SIGN_BIT && n == word * Pow256(size - 3)
    ensures n < Pow256(size)
  {
    var u := Pow256(size - 3);
    assert Pow256(size) == 0x100_0000 * u by {
      Powers();
      PowSplit(3, size - 3);
    }
    hide Pow256;
    MulLe(word + 1, 0x100_0000, u);
  }

  lemma SizeByteAtMost(n: nat, size: nat)
    requires ByteLen(n) < size || (ByteLen(n) == size && Leading(n) < SIGN_BIT)
    ensures SizeByte(n) <= size
  {
    hide ByteLen, Leading;
  }

  lemma LeadingLong(n: nat)
    requires ByteLen(n) > 3
    ensures Leading(n) == n / Pow256(ByteLen(n) - 3)
  {
  }

  lemma DivExact(word: nat, u: nat)
    requires u > 0 && word % u == 0
    ensures word / u * u == word
  {
  }

  /** Encoding forgets nothing more the second time. */
  lemma ReencodingIsStable(n: nat)
    requires n < TWO_TO_256
    ensures BigToCompact(CompactToBig(BigToCompact(n))) == BigToCompact(n)
  {
    hide ByteLen, Leading, Pow256;
    if n > 0 {
      SizeBound(n);
      EncodedParts(n);
      EncodingIsCanonical(n);
      var c := BigToCompact(n);
      hide BigToCompact, CompactToBig, SizeByte;
      PositiveSign(c % MANTISSA, c / MANTISSA, c);
      CanonicalIffFixed(c);
    }
  }

  lemma PositiveSign(word: nat, size: nat, c: uint32)
    requires word == c % MANTISSA && size == c / MANTISSA && Canonical(c)
    ensures c / SIGN_BIT % 2 == 0
  {
    hide Pow256;
    assert c == word + size * MANTISSA;
    assert word < SIGN_BIT;
    assert c / SIGN_BIT == 2 * size;
  }

  // ----- The difficulty average -----

  /** The sum of the first `count` clamped targets. */
  function TargetSum(recent: seq<BlockWindowEntry>, count: nat, limit: nat): nat
    requires count <= |recent| && limit > 0
  {
    if count == 0 then 0 else TargetSum(recent, count - 1, limit) + ClampedTarget(recent[count - 1].bits, limit)
  }

  /** The floored steps lag the true mean by less than one unit per step: at most 276 after 24. */
  lemma {:induction false} AverageLag(recent: seq<BlockWindowEntry>, count: nat, limit: nat)
    requires 1 <= count <= |recent| && limit > 0
    ensures 0 <= TargetSum(recent, count, limit) - count * RunningAverage(recent, count, limit) <= count * (count - 1) / 2
  {
    hide ClampedTarget;
    if count == 1 {
      assert TargetSum(recent, 0, limit) == 0;
    } else {
      AverageLag(recent, count - 1, limit);
      LagStep(TargetSum(recent, count - 1, limit), RunningAverage(recent, count - 1, limit),
              ClampedTarget(recent[count - 1].bits, limit), count);
    }
  }

  lemma LagStep(sum: int, average: int, target: int, count: nat)
    requires count >= 2 && 0 <= sum - (count - 1) * average <= (count - 1) * (count - 2) / 2
    ensures var next := average + (target - average) / count;
      0 <= sum + target - count * next <= count * (count - 1) / 2
  {
    var d := target - average;
    var q, r := d / count, d % count;
    assert d == count * q + r && 0 <= r < count;
    assert count * (average + q) == count * average + count * q;
    assert (count - 1) * average == count * average - average;
    Triangle(count);
  }

  lemma Triangle(count: nat)
    requires count >= 2
    ensures (count - 1) * (count - 2) / 2 + (count - 1) == count * (count - 1) / 2
  {
    assert count * (count - 1) == (count - 1) * (count - 2) + 2 * (count - 1);
  }

  /** The average lies between any bounds that hold of all targets, so between the least and the
    greatest of them. */
  lemma {:induction false} AverageBetween(recent: seq<BlockWindowEntry>, count: nat, limit: nat, lo: int, hi: int)
    requires 1 <= count <= |recent| && limit > 0
    requires forall i :: 0 <= i < count ==> lo <= ClampedTarget(recent[i].bits, limit) <= hi
    ensures lo <= RunningAverage(recent, count, limit) <= hi
  {
    hide ClampedTarget;
    if count > 1 {
      AverageBetween(recent, count - 1, limit, lo, hi);
      StepBetween(RunningAverage(recent, count - 1, limit), ClampedTarget(recent[count - 1].bits, limit), count, lo, hi);
    }
  }

  lemma StepBetween(average: int, target: int, count: nat, lo: int, hi: int)
    requires count >= 2 && lo <= average <= hi && lo <= target <= hi
    ensures lo <= average + (target - average) / count <= hi
  {
    DivShrinks(target - average, count);
  }

  /** Dividing by a count moves a number towards zero, never past it. */
  lemma DivShrinks(d: int, count: nat)
    requires count >= 1
    ensures d >= 0 ==> 0 <= d / count <= d
    ensures d < 0 ==> d <= d / count <= 0
  {
    var q := d / count;
    assert q * count + d % count == d;
    if d >= 0 {
      Stretch(q, count);
    } else {
      Stretch(-q - 1, count);
    }
  }

  lemma Stretch(q: int, count: nat)
    requires count >= 1
    ensures q >= 0 ==> q * count >= q
    ensures q < 0 ==> q * count + count <= 0
    ensures (-q - 1) * count + q * count + count == 0
  {
  }

  lemma AverageFacts(recent: seq<BlockWindowEntry>, limit: nat)
    requires |recent| >= DGW_PAST_BLOCKS && limit > 0
    ensures var average := RunningAverage(recent, DGW_PAST_BLOCKS, limit);
      && 0 <= TargetSum(recent, DGW_PAST_BLOCKS, limit) - 24 * average <= 276
      && 0 < average <= limit
  {
    AverageLag(recent, DGW_PAST_BLOCKS, limit);
    AverageBetween(recent, DGW_PAST_BLOCKS, limit, 1, limit);
    hide ClampedTarget, RunningAverage, TargetSum;
  }

  /** One retarget moves the target by at most a factor of three either way, and never above
    the limit. */
  lemma NextTargetBounds(recent: seq<BlockWindowEntry>, spacing: nat, limit: nat)
    requires |recent| >= DGW_PAST_BLOCKS && spacing > 0 && limit > 0
    ensures var average := RunningAverage(recent, DGW_PAST_BLOCKS, limit);
      && average / 3 <= NextTarget(recent, spacing, limit)
      && NextTarget(recent, spacing, limit) <= 3 * average
      && NextTarget(recent, spacing, limit) <= limit
  {
    AverageFacts(recent, limit);
    var average, span := RunningAverage(recent, DGW_PAST_BLOCKS, limit), ClampedTimespan(recent, spacing);
    assert 8 * spacing <= span <= 72 * spacing;
    hide RunningAverage, ClampedTimespan, TargetSum;
    Scaled(average, span, spacing);
  }

  lemma Scaled(average: nat, span: nat, spacing: nat)
    requires spacing > 0 && 8 * spacing <= span <= 72 * spacing
    ensures average / 3 <= average * span / (24 * spacing) <= 3 * average
  {
    var d, a := 24 * spacing, average / 3;
    MulLe(8 * spacing, span, average);
    MulLe(span, 72 * spacing, average);
    MulLe(3 * a, average, 8 * spacing);
    assert a * d == 3 * a * (8 * spacing);
    assert average * (8 * spacing) <= average * span <= average * (72 * spacing);
    assert (3 * average) * d == average * (72 * spacing);
    DivBetween(average * span, d, a, 3 * average);
  }

  lemma DivBetween(n: nat, d: nat, lo: nat, hi: nat)
    requires d > 0 && lo * d <= n <= hi * d
    ensures lo <= n / d <= hi
  {
    MulLe(hi, hi + 1, d);
    assert hi * d < (hi + 1) * d;
    DivBounds(n, d, lo, hi + 1);
  }

  /** The bits that a retarget returns never decode above the limit, so they pass the range half
    of the work check whenever the average is at least three. */
  lemma RetargetIsUsable(recent: seq<BlockWindowEntry>, spacing: nat, limit: nat, limitBits: uint32)
    requires |recent| >= DGW_PAST_BLOCKS && spacing > 0 && 0 < limit < TWO_TO_256
    ensures var target := CompactToBig(DarkGravityWave(recent, spacing, limit, limitBits));
      && 0 <= target <= NextTarget(recent, spacing, limit) <= limit
      && (RunningAverage(recent, DGW_PAST_BLOCKS, limit) >= 3 ==> target > 0)
  {
    NextTargetBounds(recent, spacing, limit);
    AverageFacts(recent, limit);
    var next := NextTarget(recent, spacing, limit);
    hide RunningAverage, NextTarget, TargetSum;
    if next > 0 {
      CompactRounds(next);
      hide CompactToBig, BigToCompact;
    } else {
      assert BigToCompact(next) == 0 && CompactToBig(0) == 0 / Pow256(3);
    }
  }

  // ----- What the retarget does with the time span -----

  /** `q` is n / d rounded down, or the limit when that is less. */
  predicate CappedQuotient(q: int, n: int, d: int, limit: int) {
    (q < limit && q * d <= n < (q + 1) * d) || (q == limit && limit * d <= n)
  }

  /** With the span of the window between a third and three times the target span, the next target
    is average times span over target span, rounded down and capped by the limit; outside, the
    nearest end of that range counts instead of the span. */
  lemma RetargetLaw(recent: seq<BlockWindowEntry>, spacing: nat, limit: nat, limitBits: uint32)
    requires |recent| >= DGW_PAST_BLOCKS && spacing > 0 && limit > 0
    ensures var span, average := recent[0].time - recent[23].time, RunningAverage(recent, 24, limit);
      var counted := if span < 8 * spacing then 8 * spacing else if span > 72 * spacing then 72 * spacing else span;
      var next := NextTarget(recent, spacing, limit);
      && CappedQuotient(next, average * counted, 24 * spacing, limit)
      && DarkGravityWave(recent, spacing, limit, limitBits) == BigToCompact(next)
  {
    var span, average := recent[0].time - recent[23].time, RunningAverage(recent, 24, limit);
    var counted := if span < 8 * spacing then 8 * spacing else if span > 72 * spacing then 72 * spacing else span;
    hide *;
    SpanCounts(recent, spacing);
    RetargetParts(recent, spacing, limit, limitBits);
    AverageFacts(recent, limit);
    MulLe(0, counted, average);
    Capped(average * counted, 24 * spacing, limit);
  }

  lemma SpanCounts(recent: seq<BlockWindowEntry>, spacing: nat)
    requires |recent| >= DGW_PAST_BLOCKS && spacing > 0
    ensures var span := recent[0].time - recent[23].time;
      ClampedTimespan(recent, spacing) == if span < 8 * spacing then 8 * spacing else if span > 72 * spacing then 72 * spacing else span
    ensures DGW_PAST_BLOCKS == 24
  {
  }

  lemma RetargetParts(recent: seq<BlockWindowEntry>, spacing: nat, limit: nat, limitBits: uint32)
    requires |recent| >= DGW_PAST_BLOCKS && spacing > 0 && limit > 0
    ensures var q := RunningAverage(recent, 24, limit) * ClampedTimespan(recent, spacing) / (24 * spacing);
      NextTarget(recent, spacing, limit) == if q > limit then limit else q
    ensures DarkGravityWave(recent, spacing, limit, limitBits) == BigToCompact(NextTarget(recent, spacing, limit))
  {
    hide RunningAverage, ClampedTimespan, BigToCompact;
  }

  lemma Capped(n: nat, d: nat, limit: nat)
    requires d > 0
    ensures CappedQuotient(if n / d > limit then limit else n / d, n, d, limit)
  {
    var q := n / d;
    assert q * d <= n < (q + 1) * d by {
      assert n == q * d + n % d;
    }
    if q >= limit {
      MulLe(limit, q, d);
    }
  }

  /** On the same targets, a longer span never makes the next target harder. */
  lemma RetargetMonotone(a: seq<BlockWindowEntry>, b: seq<BlockWindowEntry>, spacing: nat, limit: nat)
    requires |a| >= DGW_PAST_BLOCKS && |b| >= DGW_PAST_BLOCKS && spacing > 0 && limit > 0
    requires forall i :: 0 <= i < 24 ==> a[i].bits == b[i].bits
    requires a[0].time - a[23].time <= b[0].time - b[23].time
    ensures NextTarget(a, spacing, limit) <= NextTarget(b, spacing, limit)
  {
    SameAverage(a, b, 24, limit);
    AverageFacts(a, limit);
    var average, s, t := RunningAverage(a, 24, limit), ClampedTimespan(a, spacing), ClampedTimespan(b, spacing);
    assert 0 <= s <= t;
    hide RunningAverage, ClampedTimespan, TargetSum;
    MulLe(s, t, average);
    MulLe(0, s, average);
    QuotientMonotone(average * s, average * t, 24 * spacing);
  }

  lemma QuotientMonotone(m: nat, n: nat, d: nat)
    requires m <= n && d > 0
    ensures m / d <= n / d
  {
    var p, q := m / d, n / d;
    assert m == p * d + m % d && n == q * d + n % d;
    if p > q {
      MulLe(q + 1, p, d);
    }
  }

  lemma {:induction false} SameAverage(a: seq<BlockWindowEntry>, b: seq<BlockWindowEntry>, count: nat, limit: nat)
    requires 1 <= count <= |a| && count <= |b| && limit > 0
    requires forall i :: 0 <= i < count ==> a[i].bits == b[i].bits
    ensures RunningAverage(a, count, limit) == RunningAverage(b, count, limit)
  {
    hide ClampedTarget;
    if count > 1 {
      SameAverage(a, b, count - 1, limit);
    }
  }

  // ----- What the work check and the work measure mean -----

  /** The hash values below 2^256 that meet the target of `bits`. */
  function Passing(bits: uint32): set<int> {
    set v: int | 0 <= v < TWO_TO_256 && CheckProofOfWork(v, bits)
  }

  /** A hash passes exactly when it does not exceed a target in range; that makes target + 1 of the
    2^256 values, and the work of a block is the number of hashes expected for one success. */
  lemma WorkIsExpectedHashes(bits: uint32)
    ensures var target, n := CompactToBig(bits), |Passing(bits)|;
      && (forall v :: v in Passing(bits) <==> 0 < target <= POW_LIMIT && 0 <= v <= target)
      && n == (if 0 < target <= POW_LIMIT then target + 1 else 0)
      && (n == 0 ==> WorkForBits(bits) == 0)
      && (n > 0 ==> WorkForBits(bits) * n <= TWO_TO_256 < (WorkForBits(bits) + 1) * n)
  {
    hide *;
    var target, all := CompactToBig(bits), Passing(bits);
    PassingIs(bits);
    if 0 < target <= POW_LIMIT {
      var first := First(target + 1);
      FirstMany(target + 1);
      assert forall v :: v in all <==> v in first;
      assert all == first;
      DivFact(TWO_TO_256, target + 1);
    } else {
      assert forall v :: v !in all;
      assert all == {};
    }
  }

  lemma PassingIs(bits: uint32)
    ensures var target := CompactToBig(bits);
      && (forall v :: v in Passing(bits) <==> 0 < target <= POW_LIMIT && 0 <= v <= target)
      && WorkForBits(bits) == (if 0 < target <= POW_LIMIT then TWO_TO_256 / (target + 1) else 0)
      && POW_LIMIT < TWO_TO_256
  {
    hide CompactToBig;
  }

  function First(n: nat): set<int> {
    if n == 0 then {} else First(n - 1) + {n - 1}
  }

  lemma {:induction false} FirstMany(n: nat)
    ensures |First(n)| == n && forall v :: v in First(n) <==> 0 <= v < n
  {
    if n > 0 {
      FirstMany(n - 1);
    }
  }
}
