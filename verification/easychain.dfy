/** Concrete valid chains, for the examples in module Boundaries: parameters under which every hash
  has work and every script verifies, and headers 1800 seconds apart, for which the difficulty rule
  keeps asking for the easiest target.
*/
module EasyChain {
  import opened Wire
  import opened ChainCfg
  import opened Consensus
  import opened Targets
  import opened Ledger
  import opened Supply
  import opened ChainPath

  const EASY_BITS: uint32 := 0x207F_FFFF
  const STEP := 1800
  const NOW: Clock := 1_000_000

  const FREE: TxRules := TxRules((b: Block) => 0, (s: Script) => 0, (t: Tx, j: nat, s: Script) => Some(0))
  const EASY: Params := Params(FREE, (h: Hash) => 0, EASY_BITS, EASY_BITS)

  // ----- The difficulty stays at the limit -----

  function EasyTarget(): int {
    0x7F_FFFF * Pow256(29)
  }

  lemma Large()
    ensures Pow256(32) == TWO_TO_256 && Pow256(31) * 256 == Pow256(32) && Pow256(29) * 0x100_0000 == TWO_TO_256
  {
    Pow32();
    Powers();
    PowSplit(29, 3);
  }

  lemma EasyBitsDecode()
    ensures CompactToBig(EASY_BITS) == EasyTarget() && 0 < EasyTarget() <= POW_LIMIT
    ensures ClampedTarget(EASY_BITS, POW_LIMIT) == EasyTarget()
    ensures 2 * EasyTarget() > POW_LIMIT
  {
    Large();
    assert EASY_BITS / MANTISSA == 32 && EASY_BITS % SIGN_BIT == 0x7F_FFFF && EASY_BITS / SIGN_BIT == 64;
    hide Pow256;
  }

  lemma LimitEncodes()
    ensures BigToCompact(POW_LIMIT) == EASY_BITS
  {
    Large();
    ByteLenIs(POW_LIMIT, 32);
    assert 0x7F_FFFF * Pow256(29) <= POW_LIMIT < 0x80_0000 * Pow256(29);
    DivBounds(POW_LIMIT, Pow256(29), 0x7F_FFFF, 0x80_0000);
    hide Pow256, ByteLen;
  }

  predicate EasyWindow(recent: seq<BlockWindowEntry>) {
    forall i :: 0 <= i < |recent| ==> recent[i].bits == EASY_BITS && recent[i].time == recent[0].time - STEP * i
  }

  lemma EasyRetarget(recent: seq<BlockWindowEntry>)
    requires |recent| == DGW_PAST_BLOCKS && EasyWindow(recent)
    ensures DarkGravityWave(recent, TARGET_SPACING, POW_LIMIT, EASY_BITS) == EASY_BITS
  {
    EasyBitsDecode();
    LimitEncodes();
    var t := EasyTarget();
    AverageBetween(recent, DGW_PAST_BLOCKS, POW_LIMIT, t, t);
    assert ClampedTimespan(recent, TARGET_SPACING) == 41400;
    hide RunningAverage, ClampedTimespan, BigToCompact, CompactToBig, EasyTarget, ClampedTarget;
    MulLe(2 * 14400, 41400, t);
    DivBounds(t * 41400, 14400, 2 * t, t * 41400 + 1);
  }

  lemma EasyRequired(recent: seq<BlockWindowEntry>)
    requires |recent| <= DGW_PAST_BLOCKS && EasyWindow(recent)
    ensures RequiredBits(EASY, recent) == EASY_BITS
  {
    if |recent| == DGW_PAST_BLOCKS {
      assert recent[..DGW_PAST_BLOCKS] == recent;
      EasyRetarget(recent);
    }
    hide DarkGravityWave;
  }

  // ----- Headers -----

  ghost predicate EasyHeaders(path: seq<Block>) {
    forall i :: 0 <= i < |path| ==> path[i].header.bits == EASY_BITS && path[i].header.time == STEP * (i + 1)
  }

  /** A valid chain of easy headers, far from the end of time. */
  ghost predicate EasyPath(path: seq<Block>) {
    |path| < 500 && EasyHeaders(path) && ValidPath(EASY, path, NOW)
  }

  /** The block with the given transactions on top of a chain. */
  function Next(path: seq<Block>, txs: seq<Tx>): Block
    requires |path| < 500
  {
    Block(Header(1, TipOf(path), MerkleRoot(txs), STEP * (|path| + 1), EASY_BITS, 0), txs)
  }

  lemma EasyRecent(path: seq<Block>)
    requires EasyHeaders(path)
    ensures var recent := Recent(HeadersOf(path), DGW_PAST_BLOCKS);
      && |recent| <= DGW_PAST_BLOCKS && EasyWindow(recent)
      && (|path| > 0 ==> |recent| > 0)
      && forall i :: 0 <= i < |recent| ==> recent[i].time <= STEP * |path|
  {
    var hs := HeadersOf(path);
    var recent := Recent(hs, DGW_PAST_BLOCKS);
    forall i | 0 <= i < |recent|
      ensures recent[i].bits == EASY_BITS && recent[i].time == STEP * (|path| - i)
    {
      assert recent[i] == EntryAt(hs, |hs| - 1 - i) && hs[|hs| - 1 - i] == path[|path| - 1 - i].header;
    }
  }

  /** The median is one of the times. */
  lemma MedianAtMost(recent: seq<BlockWindowEntry>, bound: int)
    requires |recent| > 0 && forall i :: 0 <= i < |recent| ==> recent[i].time <= bound
    ensures MedianTime(recent) <= bound
  {
    var times := TimesOf(recent);
    SortSorts(times);
    assert Sort(times)[|times| / 2] in multiset(Sort(times));
    hide Sort;
  }

  lemma EasyHeaderOk(path: seq<Block>, txs: seq<Tx>)
    requires EasyHeaders(path) && |path| < 500
    ensures HeaderOk(EASY, HeadersOf(path), Next(path, txs).header, NOW)
    ensures CheckProofOfWork(EASY.powValue(BlockHash(Next(path, txs))), EASY_BITS)
  {
    EasyBitsDecode();
    EasyRecent(path);
    var recent := Recent(HeadersOf(path), DGW_PAST_BLOCKS);
    EasyRequired(recent);
    hide Recent, CompactToBig, RequiredBits, EasyTarget, MerkleRoot;
    if |path| > 0 {
      hide MedianTime;
      MedianAtMost(recent, STEP * |path|);
    }
  }

  /** Transactions that the reference validator accepts make the next valid block. */
  lemma Extends(path: seq<Block>, txs: seq<Tx>)
    requires EasyPath(path) && |path| < 499 && |txs| > 0
    requires BlockTxsOk(FREE, Replay(path), Next(path, txs), |path|)
    ensures BlockOk(EASY, path, Next(path, txs), NOW) && ExtendsOk(EASY, path, Next(path, txs), NOW)
    ensures EasyPath(path + [Next(path, txs)])
  {
    hide *;
    var b := Next(path, txs);
    EasyParts(path);
    NextIs(path, txs);
    EasyHeaderOk(path, txs);
    Assembled(path, b);
    ValidPathAppend(EASY, path, b, NOW);
    EasyMore(path, b);
  }

  lemma EasyParts(path: seq<Block>)
    ensures EasyPath(path) <==> |path| < 500 && EasyHeaders(path) && ValidPath(EASY, path, NOW)
    ensures EASY.txRules == FREE
  {
    hide ValidPath, EasyHeaders;
  }

  lemma Assembled(path: seq<Block>, b: Block)
    requires |b.txs| > 0 && b.header.merkle == MerkleRoot(b.txs) && HeaderOk(EASY, HeadersOf(path), b.header, NOW)
    requires CheckProofOfWork(EASY.powValue(BlockHash(b)), b.header.bits) && BlockTxsOk(EASY.txRules, Replay(path), b, |path|)
    ensures BlockOk(EASY, path, b, NOW) && ExtendsOk(EASY, path, b, NOW)
  {
    hide HeaderOk, CheckProofOfWork, BlockTxsOk, MerkleRoot, ApplyBlock;
    assert |path| == 0 ==> Replay(path) == map[];
  }

  lemma EasyMore(path: seq<Block>, b: Block)
    requires |path| < 499 && EasyHeaders(path) && b.header.bits == EASY_BITS && b.header.time == STEP * (|path| + 1)
    requires ValidPath(EASY, path + [b], NOW)
    ensures EasyPath(path + [b])
  {
    hide ValidPath;
  }

  lemma EmptyEasy()
    ensures EasyPath([])
  {
  }

  // ----- Transactions -----

  /** A coinbase; different tags make different ones. */
  function RewardTx(tag: int): Tx {
    Tx(tag, [TxIn(OutPoint(ZeroTxId, MAX_UINT32), [0, 0], 0)], [TxOut(5, [])], 0)
  }

  /** Spends the one output of `from`. */
  function Pay(from: Tx): Tx {
    Tx(0, [TxIn(KeyOf(from), [], 0)], [TxOut(5, [])], 0)
  }

  function KeyOf(tx: Tx): OutPoint {
    OutPoint(HashOf(tx), 0)
  }

  lemma MadeByOne(tx: Tx, height: int, coinbase: bool)
    requires |tx.outs| == 1
    ensures Created(tx, height, coinbase) == map[KeyOf(tx) := OutEntry(tx, 0, height, coinbase)]
    ensures OutKeys(tx) == {KeyOf(tx)}
  {
    assert OutKeys(tx) == {KeyOf(tx)};
  }

  lemma SpentByPay(from: Tx)
    ensures Spent(Pay(from), false) == {KeyOf(from)} && Pay(from) != from && !IsCoinbase(Pay(from))
  {
    assert Pay(from).ins[0].prev.hash == HashOf(from);
    assert InKeys(Pay(from).ins, 1) == {KeyOf(from)};
  }

  lemma FiveAllowed(height: int)
    requires 0 <= height < HALVING_INTERVAL
    ensures 5 <= BlockSubsidy(height)
  {
    assert ShiftRight(SUBSIDY as nat, 0) == SUBSIDY as nat;
  }

  lemma FreeOuts(outs: seq<TxOut>)
    requires outs == [TxOut(5, [])]
    ensures OutputsOk(outs, 1) && SumOut(outs, 1) == 5
  {
    assert OutputsOk(outs, 0) && SumOut(outs, 0) == 0 && SumOut(outs, 1) == SumOut(outs, 0) + outs[0].value as int;
  }

  lemma {:induction false} FreeOutOps(outs: seq<TxOut>, n: nat)
    requires n <= |outs|
    ensures OutOps(FREE, outs, n) == 0
  {
    if n > 0 {
      FreeOutOps(outs, n - 1);
    }
  }

  lemma {:induction false} FreeInOps(utxo: UtxoSet, tx: Tx, n: nat)
    requires n <= |tx.ins|
    ensures InOps(FREE, utxo, tx, n) == 0
  {
    if n > 0 {
      FreeInOps(utxo, tx, n - 1);
    }
  }

  lemma FreeOps(utxo: UtxoSet, tx: Tx, coinbase: bool)
    ensures TxOps(FREE, utxo, tx, coinbase) == 0
  {
    FreeOutOps(tx.outs, |tx.outs|);
    FreeInOps(utxo, tx, |tx.ins|);
  }

  lemma RewardOk(utxo: UtxoSet, tag: int, height: int, time: uint32)
    ensures TxOk(FREE, utxo, RewardTx(tag), true, height, time) && IsCoinbase(RewardTx(tag))
  {
    FreeOps(utxo, RewardTx(tag), true);
    FreeOuts(RewardTx(tag).outs);
    hide OutputsOk, TxOps;
  }

  lemma PayOk(utxo: UtxoSet, from: Tx, height: int, time: uint32)
    requires KeyOf(from) in utxo && Mature(utxo[KeyOf(from)], height) && utxo[KeyOf(from)].value == 5
    ensures TxOk(FREE, utxo, Pay(from), false, height, time) && TxFee(utxo, Pay(from)) == 0
  {
    var tx := Pay(from);
    SpentByPay(from);
    FreeOps(utxo, tx, false);
    FreeOuts(tx.outs);
    assert SumIn(utxo, tx.ins, 0) == 0 && SumIn(utxo, tx.ins, 1) == 5;
    assert InputsOk(FREE, utxo, tx, 0, height) && InputOk(FREE, utxo, tx, 0, height);
    assert InputsOk(FREE, utxo, tx, 1, height);
    hide OutputsOk, TxOps, SumIn, SumOut, InputsOk, IsFinalizedTx;
    assert IsFinalizedTx(tx, height, time) by {
      Unlocked(tx, height, time);
    }
  }

  lemma Unlocked(tx: Tx, height: int, time: uint32)
    requires tx.lockTime == 0
    ensures IsFinalizedTx(tx, height, time)
  {
  }

  /** The transactions of a block, taken one at a time: what the next one adds. */
  lemma OneMore(utxo: UtxoSet, txs: seq<Tx>, n: nat, height: int, time: uint32)
    requires n < |txs| && TxsOk(FREE, utxo, txs, n, height, time) && txs[n] !in txs[..n]
    requires var before := ApplyTxs(utxo, txs, n, height);
      TxOk(FREE, before, txs[n], n == 0, height, time) && (n > 0 ==> TxFee(before, txs[n]) == 0)
    requires BlockOps(FREE, utxo, txs, n, height) == 0 && Fees(utxo, txs, n, height) == 0
    ensures TxsOk(FREE, utxo, txs, n + 1, height, time)
    ensures BlockOps(FREE, utxo, txs, n + 1, height) == 0 && Fees(utxo, txs, n + 1, height) == 0
  {
    FreeOps(ApplyTxs(utxo, txs, n, height), txs[n], n == 0);
    hide TxOk, TxOps, TxFee, ApplyTxs;
  }

  lemma NoneYet(utxo: UtxoSet, txs: seq<Tx>, height: int, time: uint32)
    ensures TxsOk(FREE, utxo, txs, 0, height, time) && BlockOps(FREE, utxo, txs, 0, height) == 0 && Fees(utxo, txs, 0, height) == 0
    ensures ApplyTxs(utxo, txs, 0, height) == utxo
  {
  }

  /** The first transaction, a coinbase. */
  lemma First(utxo: UtxoSet, txs: seq<Tx>, tag: int, height: int, time: uint32)
    requires |txs| > 0 && txs[0] == RewardTx(tag)
    ensures TxsOk(FREE, utxo, txs, 1, height, time) && BlockOps(FREE, utxo, txs, 1, height) == 0 && Fees(utxo, txs, 1, height) == 0
    ensures ApplyTxs(utxo, txs, 1, height) == utxo[KeyOf(RewardTx(tag)) := OutEntry(RewardTx(tag), 0, height, true)]
  {
    NoneYet(utxo, txs, height, time);
    RewardOk(utxo, tag, height, time);
    OneMore(utxo, txs, 0, height, time);
    MadeByOne(RewardTx(tag), height, true);
    assert ApplyTxs(utxo, txs, 1, height) == ApplyTx(ApplyTxs(utxo, txs, 0, height), txs[0], height, true);
    assert utxo - {} == utxo;
  }

  /** A further transaction, which pays on the output of `from`. */
  lemma Further(utxo: UtxoSet, txs: seq<Tx>, n: nat, from: Tx, height: int, time: uint32)
    requires 0 < n < |txs| && txs[n] == Pay(from) && txs[n] !in txs[..n]
    requires TxsOk(FREE, utxo, txs, n, height, time) && BlockOps(FREE, utxo, txs, n, height) == 0 && Fees(utxo, txs, n, height) == 0
    requires var before, k := ApplyTxs(utxo, txs, n, height), KeyOf(from);
      k in before && Mature(before[k], height) && before[k].value == 5
    ensures TxsOk(FREE, utxo, txs, n + 1, height, time) && BlockOps(FREE, utxo, txs, n + 1, height) == 0 && Fees(utxo, txs, n + 1, height) == 0
    ensures ApplyTxs(utxo, txs, n + 1, height)
         == (ApplyTxs(utxo, txs, n, height) - {KeyOf(from)})[KeyOf(Pay(from)) := OutEntry(Pay(from), 0, height, false)]
  {
    hide *;
    PayOk(ApplyTxs(utxo, txs, n, height), from, height, time);
    OneMore(utxo, txs, n, height, time);
    ApplyNext(utxo, txs, n, height);
    ApplyPay(ApplyTxs(utxo, txs, n, height), from, height);
  }

  lemma ApplyNext(utxo: UtxoSet, txs: seq<Tx>, n: nat, height: int)
    requires n < |txs|
    ensures ApplyTxs(utxo, txs, n + 1, height) == ApplyTx(ApplyTxs(utxo, txs, n, height), txs[n], height, n == 0)
  {
    hide ApplyTx;
  }

  lemma ApplyPay(utxo: UtxoSet, from: Tx, height: int)
    ensures |Pay(from).outs| == 1
    ensures ApplyTx(utxo, Pay(from), height, false)
         == (utxo - {KeyOf(from)})[KeyOf(Pay(from)) := OutEntry(Pay(from), 0, height, false)]
  {
    MadeByOne(Pay(from), height, false);
    SpentByPay(from);
    hide Created, OutEntry, Spent, IsCoinbase;
  }

  /** A block whose transactions all pass and whose coinbase takes no more than the subsidy. */
  lemma BlockPasses(utxo: UtxoSet, block: Block, tag: int, height: int)
    requires |block.txs| > 0 && block.txs[0] == RewardTx(tag) && 0 <= height < HALVING_INTERVAL
    requires TxsOk(FREE, utxo, block.txs, |block.txs|, height, block.header.time) && Fees(utxo, block.txs, |block.txs|, height) == 0
    ensures BlockTxsOk(FREE, utxo, block, height)
  {
    FiveAllowed(height);
    FreeOuts(RewardTx(tag).outs);
    RewardOk(utxo, tag, height, block.header.time);
    hide TxsOk, Fees, BlockSubsidy, TxOk, SumOut;
  }

  // ----- Blocks that carry a coinbase only -----

  function Mined(path: seq<Block>, tag: int): seq<Block>
    requires |path| < 500
  {
    path + [Next(path, [RewardTx(tag)])]
  }

  lemma MinedOk(path: seq<Block>, tag: int)
    requires EasyPath(path) && |path| < 499
    ensures EasyPath(Mined(path, tag)) && BlockOk(EASY, path, Next(path, [RewardTx(tag)]), NOW)
    ensures ExtendsOk(EASY, path, Next(path, [RewardTx(tag)]), NOW)
    ensures Replay(Mined(path, tag)) == Replay(path)[KeyOf(RewardTx(tag)) := OutEntry(RewardTx(tag), 0, |path|, true)]
  {
    hide *;
    var txs, b := [RewardTx(tag)], Next(path, [RewardTx(tag)]);
    NextIs(path, txs);
    First(Replay(path), txs, tag, |path|, b.header.time);
    BlockPasses(Replay(path), b, tag, |path|);
    Extends(path, txs);
    ReplayNext(path, b);
    MinedIs(path, tag);
  }

  lemma MinedIs(path: seq<Block>, tag: int)
    requires |path| < 500
    ensures Mined(path, tag) == path + [Next(path, [RewardTx(tag)])]
  {
  }

  lemma NextIs(path: seq<Block>, txs: seq<Tx>)
    requires |path| < 500
    ensures var b := Next(path, txs);
      b.txs == txs && b.header.bits == EASY_BITS && b.header.time == STEP * (|path| + 1) && b.header.prev == TipOf(path) && b.header.merkle == MerkleRoot(txs)
    ensures HALVING_INTERVAL == 210_000
  {
  }

  lemma ReplayNext(path: seq<Block>, b: Block)
    ensures Replay(path + [b]) == ApplyTxs(Replay(path), b.txs, |b.txs|, |path|)
  {
    assert (path + [b])[..|path|] == path;
  }
}
