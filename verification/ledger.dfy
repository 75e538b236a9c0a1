/** The unspent-output set, and the reference semantics of a block: its transactions run one
  at a time on that set.  `BlockTxsOk` is the validator a reader would write first; the
  node's batched validator (module Batch) is proved to agree with it.
*/
module Ledger {
  import opened Wire
  import opened ChainCfg

  datatype Entry = Entry(key: OutPoint, value: int64, pkScript: Script, height: int, coinbase: bool)

  type UtxoSet = map<OutPoint, Entry>

  /** Code outside the ledger that validation calls: serialised size, signature-operation
    counts and input verification.  `spendSigOps` is None when counting or verifying fails. */
  datatype TxRules = TxRules(
    blockSize: Block -> nat,
    outSigOps: Script -> nat,
    spendSigOps: (Tx, nat, Script) -> Option<nat>)

  datatype BlockError =
    | NoTransactions | BadMerkleRoot | BadPrevBlock | BadCoinbase | MissingTxOut | DuplicateSpend
    | BadTxValue | BadBits | ImmatureCoinbase | BadCoinbaseValue | NonFinalTx | DuplicateTxID
    | BadBlockSize | TimeTooOld | TimeTooNew | TooManySigOps | NoInputs | ScriptFailed
    | TargetTooHigh | HighHash

  const LOCK_TIME_THRESHOLD := 500_000_000
  const MAX_BLOCK_SIZE := 1_000_000
  const MIN_COINBASE_SCRIPT := 2
  const MAX_COINBASE_SCRIPT := 100
  const MAX_TX_SIG_OPS := 4_000
  const MAX_BLOCK_SIG_OPS := 20_000

  predicate IsFinalizedTx(tx: Tx, height: int, blockTime: uint32) {
    || tx.lockTime == 0
    || tx.lockTime < (if tx.lockTime >= LOCK_TIME_THRESHOLD then blockTime else if height < 0 then 0 else height)
    || forall i :: 0 <= i < |tx.ins| ==> tx.ins[i].sequence == MAX_UINT32
  }

  // ----- One transaction at a time -----

  /** The outpoints among the first n inputs. */
  function InKeys(ins: seq<TxIn>, n: nat): set<OutPoint>
    requires n <= |ins|
  {
    set j | 0 <= j < n :: ins[j].prev
  }

  lemma InKeysStep(ins: seq<TxIn>, j: nat)
    requires j < |ins|
    ensures InKeys(ins, j + 1) == InKeys(ins, j) + {ins[j].prev}
  {
  }

  function OutKeys(tx: Tx): set<OutPoint> {
    set i | 0 <= i < |tx.outs| :: OutPoint(HashOf(tx), i)
  }

  function OutEntry(tx: Tx, i: nat, height: int, coinbase: bool): Entry
    requires i < |tx.outs|
  {
    Entry(OutPoint(HashOf(tx), i), tx.outs[i].value, tx.outs[i].pkScript, height, coinbase)
  }

  function Created(tx: Tx, height: int, coinbase: bool): UtxoSet {
    map k | k in OutKeys(tx) :: OutEntry(tx, k.index, height, coinbase)
  }

  /** A coinbase spends nothing. */
  function Spent(tx: Tx, coinbase: bool): set<OutPoint> {
    if coinbase then {} else InKeys(tx.ins, |tx.ins|)
  }

  function ApplyTx(utxo: UtxoSet, tx: Tx, height: int, coinbase: bool): UtxoSet {
    (utxo - Spent(tx, coinbase)) + Created(tx, height, coinbase)
  }

  /** The set after the first n transactions of a block; the first one is its coinbase. */
  function ApplyTxs(utxo: UtxoSet, txs: seq<Tx>, n: nat, height: int): UtxoSet
    requires n <= |txs|
  {
    if n == 0 then utxo else ApplyTx(ApplyTxs(utxo, txs, n - 1, height), txs[n - 1], height, n == 1)
  }

  function SumOut(outs: seq<TxOut>, n: nat): int
    requires n <= |outs|
  {
    if n == 0 then 0 else SumOut(outs, n - 1) + outs[n - 1].value as int
  }

  function ValueAt(utxo: UtxoSet, key: OutPoint): int {
    if key in utxo then utxo[key].value as int else 0
  }

  function SumIn(utxo: UtxoSet, ins: seq<TxIn>, n: nat): int
    requires n <= |ins|
  {
    if n == 0 then 0 else SumIn(utxo, ins, n - 1) + ValueAt(utxo, ins[n - 1].prev)
  }

  function OutOps(rules: TxRules, outs: seq<TxOut>, n: nat): nat
    requires n <= |outs|
  {
    if n == 0 then 0 else OutOps(rules, outs, n - 1) + rules.outSigOps(outs[n - 1].pkScript)
  }

  function InOps(rules: TxRules, utxo: UtxoSet, tx: Tx, n: nat): nat
    requires n <= |tx.ins|
  {
    if n == 0 then 0
    else
      var key := tx.ins[n - 1].prev;
      var ops := if key in utxo then rules.spendSigOps(tx, n - 1, utxo[key].pkScript) else None;
      InOps(rules, utxo, tx, n - 1) + (if ops.Some? then ops.value else 0)
  }

  predicate Mature(e: Entry, height: int) {
    e.coinbase ==> height - e.height >= COINBASE_MATURITY
  }

  /** Input j resolves on `utxo`, is mature, verifies, and keeps the running total in range. */
  predicate InputOk(rules: TxRules, utxo: UtxoSet, tx: Tx, j: nat, height: int)
    requires j < |tx.ins|
  {
    var key := tx.ins[j].prev;
    && key in utxo
    && Mature(utxo[key], height)
    && rules.spendSigOps(tx, j, utxo[key].pkScript).Some?
    && 0 <= SumIn(utxo, tx.ins, j + 1) <= MAX_MONEY as int
  }

  predicate InputsOk(rules: TxRules, utxo: UtxoSet, tx: Tx, n: nat, height: int)
    requires n <= |tx.ins|
  {
    n == 0 ||
    (&& InputsOk(rules, utxo, tx, n - 1, height)
     && tx.ins[n - 1].prev !in InKeys(tx.ins, n - 1)
     && InputOk(rules, utxo, tx, n - 1, height))
  }

  predicate OutputsOk(outs: seq<TxOut>, n: nat)
    requires n <= |outs|
  {
    n == 0 ||
    (&& OutputsOk(outs, n - 1)
     && MoneyRange(outs[n - 1].value)
     && SumOut(outs, n) <= MAX_MONEY as int)
  }

  function TxFee(utxo: UtxoSet, tx: Tx): int {
    SumIn(utxo, tx.ins, |tx.ins|) - SumOut(tx.outs, |tx.outs|)
  }

  function TxOps(rules: TxRules, utxo: UtxoSet, tx: Tx, coinbase: bool): nat {
    OutOps(rules, tx.outs, |tx.outs|) + if coinbase then 0 else InOps(rules, utxo, tx, |tx.ins|)
  }

  predicate TxOk(rules: TxRules, utxo: UtxoSet, tx: Tx, coinbase: bool, height: int, time: uint32) {
    && IsFinalizedTx(tx, height, time)
    && OutputsOk(tx.outs, |tx.outs|)
    && TxOps(rules, utxo, tx, coinbase) <= MAX_TX_SIG_OPS
    && (!coinbase ==>
          && !IsCoinbase(tx)
          && |tx.ins| > 0
          && InputsOk(rules, utxo, tx, |tx.ins|, height)
          && TxFee(utxo, tx) >= 0)
  }

  // ----- One block -----

  function Fees(utxo: UtxoSet, txs: seq<Tx>, n: nat, height: int): int
    requires n <= |txs|
  {
    if n <= 1 then 0 else Fees(utxo, txs, n - 1, height) + TxFee(ApplyTxs(utxo, txs, n - 1, height), txs[n - 1])
  }

  function BlockOps(rules: TxRules, utxo: UtxoSet, txs: seq<Tx>, n: nat, height: int): nat
    requires n <= |txs|
  {
    if n == 0 then 0
    else BlockOps(rules, utxo, txs, n - 1, height)
         + TxOps(rules, ApplyTxs(utxo, txs, n - 1, height), txs[n - 1], n == 1)
  }

  /** The first n transactions are acceptable when each runs on the set its predecessors left. */
  predicate TxsOk(rules: TxRules, utxo: UtxoSet, txs: seq<Tx>, n: nat, height: int, time: uint32)
    requires n <= |txs|
  {
    n == 0 ||
    (&& TxsOk(rules, utxo, txs, n - 1, height, time)
     && txs[n - 1] !in txs[..n - 1]
     && TxOk(rules, ApplyTxs(utxo, txs, n - 1, height), txs[n - 1], n == 1, height, time)
     && BlockOps(rules, utxo, txs, n, height) <= MAX_BLOCK_SIG_OPS
     && Fees(utxo, txs, n, height) <= MAX_MONEY as int)
  }

  predicate BlockShapeOk(rules: TxRules, block: Block) {
    && |block.txs| > 0
    && IsCoinbase(block.txs[0])
    && rules.blockSize(block) <= MAX_BLOCK_SIZE
    && MIN_COINBASE_SCRIPT <= |block.txs[0].ins[0].sigScript| <= MAX_COINBASE_SCRIPT
  }

  /** The reference validator: every transaction in turn, then the coinbase claim. */
  predicate BlockTxsOk(rules: TxRules, utxo: UtxoSet, block: Block, height: int) {
    && BlockShapeOk(rules, block)
    && TxsOk(rules, utxo, block.txs, |block.txs|, height, block.header.time)
    && SumOut(block.txs[0].outs, |block.txs[0].outs|)
       <= BlockSubsidy(height) as int + Fees(utxo, block.txs, |block.txs|, height)
  }

  function ApplyBlock(utxo: UtxoSet, block: Block, height: int): UtxoSet {
    ApplyTxs(utxo, block.txs, |block.txs|, height)
  }

  /** What the unspent set of a chain is: the replay of its blocks, transaction by transaction. */
  function Replay(path: seq<Block>): UtxoSet {
    if |path| == 0 then map[] else ApplyBlock(Replay(path[..|path| - 1]), path[|path| - 1], |path| - 1)
  }

  // ----- What acceptance means -----

  /** A transaction with a lock is final once the height or the time, whichever its lock counts, is
    past it, or when every input waives the lock. */
  lemma FinalityIs(tx: Tx, height: int, time: uint32)
    ensures IsFinalizedTx(tx, height, time) <==>
      || tx.lockTime == 0
      || (tx.lockTime < 500_000_000 && 0 <= height && tx.lockTime < height)
      || (tx.lockTime >= 500_000_000 && tx.lockTime < time)
      || forall i :: 0 <= i < |tx.ins| ==> tx.ins[i].sequence == 0xFFFF_FFFF
  {
  }

  /** What an accepted block keeps to: each spender, on the set its predecessors leave, spends
    different outputs that are there, that verify, and that are a hundred blocks old if a coinbase
    made them; and it brings in at least what it pays out, within the money cap. */
  lemma AcceptedSpender(rules: TxRules, utxo: UtxoSet, block: Block, height: int, i: nat)
    requires BlockTxsOk(rules, utxo, block, height) && 0 < i < |block.txs|
    ensures var tx, before := block.txs[i], ApplyTxs(utxo, block.txs, i, height);
      && !IsCoinbase(tx) && |tx.ins| > 0 && IsFinalizedTx(tx, height, block.header.time)
      && (forall j :: 0 <= j < |tx.ins| ==>
            && tx.ins[j].prev in before
            && (before[tx.ins[j].prev].coinbase ==> height - before[tx.ins[j].prev].height >= 100)
            && rules.spendSigOps(tx, j, before[tx.ins[j].prev].pkScript).Some?)
      && (forall j, k :: 0 <= j < k < |tx.ins| ==> tx.ins[j].prev != tx.ins[k].prev)
      && 0 <= SumOut(tx.outs, |tx.outs|) <= SumIn(before, tx.ins, |tx.ins|) <= 2_100_000_000_000_000
      && (forall j :: 0 <= j < |tx.outs| ==> 0 <= tx.outs[j].value <= 2_100_000_000_000_000)
      && tx !in block.txs[..i]
      && TxOps(rules, before, tx, false) <= 4_000
  {
    var txs, n, time := block.txs, |block.txs|, block.header.time;
    AcceptedTxs(rules, utxo, block, height);
    TxsOkPrefix(rules, utxo, txs, i + 1, n, height, time);
    LastAccepted(rules, utxo, txs, i, height, time);
    hide TxsOk, ApplyTxs;
    SpenderParts(rules, ApplyTxs(utxo, txs, i, height), txs[i], height, time);
  }

  lemma AcceptedTxs(rules: TxRules, utxo: UtxoSet, block: Block, height: int)
    requires BlockTxsOk(rules, utxo, block, height)
    ensures TxsOk(rules, utxo, block.txs, |block.txs|, height, block.header.time)
  {
    hide TxsOk, Fees, SumOut, BlockSubsidy;
  }

  lemma LastAccepted(rules: TxRules, utxo: UtxoSet, txs: seq<Tx>, i: nat, height: int, time: uint32)
    requires i < |txs| && TxsOk(rules, utxo, txs, i + 1, height, time)
    ensures TxOk(rules, ApplyTxs(utxo, txs, i, height), txs[i], i == 0, height, time) && txs[i] !in txs[..i]
  {
    hide TxOk, ApplyTxs, BlockOps, Fees;
  }

  lemma SpenderParts(rules: TxRules, before: UtxoSet, tx: Tx, height: int, time: uint32)
    requires TxOk(rules, before, tx, false, height, time)
    ensures !IsCoinbase(tx) && |tx.ins| > 0 && IsFinalizedTx(tx, height, time)
    ensures forall j :: 0 <= j < |tx.ins| ==>
      && tx.ins[j].prev in before
      && (before[tx.ins[j].prev].coinbase ==> height - before[tx.ins[j].prev].height >= 100)
      && rules.spendSigOps(tx, j, before[tx.ins[j].prev].pkScript).Some?
    ensures forall j, k :: 0 <= j < k < |tx.ins| ==> tx.ins[j].prev != tx.ins[k].prev
    ensures 0 <= SumOut(tx.outs, |tx.outs|) <= SumIn(before, tx.ins, |tx.ins|) <= 2_100_000_000_000_000
    ensures forall j :: 0 <= j < |tx.outs| ==> 0 <= tx.outs[j].value <= 2_100_000_000_000_000
    ensures TxOps(rules, before, tx, false) <= 4_000
  {
    InputsOkFacts(rules, before, tx, |tx.ins|, height);
    OutputsOkRange(tx.outs, |tx.outs|);
    assert InputOk(rules, before, tx, |tx.ins| - 1, height);
    hide InputsOk, OutputsOk, SumIn, SumOut, TxOps, IsFinalizedTx;
  }

  /** And its first transaction is a coinbase that takes at most the subsidy and the fees. */
  lemma AcceptedCoinbase(rules: TxRules, utxo: UtxoSet, block: Block, height: int)
    requires BlockTxsOk(rules, utxo, block, height)
    ensures |block.txs| > 0 && IsCoinbase(block.txs[0]) && 2 <= |block.txs[0].ins[0].sigScript| <= 100
    ensures rules.blockSize(block) <= 1_000_000
    ensures SumOut(block.txs[0].outs, |block.txs[0].outs|)
         <= BlockSubsidy(height) as int + Fees(utxo, block.txs, |block.txs|, height)
    ensures forall i :: 0 < i < |block.txs| ==> !IsCoinbase(block.txs[i])
    ensures BlockOps(rules, utxo, block.txs, |block.txs|, height) <= 20_000
  {
    forall i | 0 < i < |block.txs|
      ensures !IsCoinbase(block.txs[i])
    {
      AcceptedSpender(rules, utxo, block, height, i);
      hide *;
    }
    AcceptedTxs(rules, utxo, block, height);
    OpsAccepted(rules, utxo, block.txs, height, block.header.time);
    hide TxsOk, Fees, SumOut, BlockSubsidy, BlockOps;
  }

  lemma OpsAccepted(rules: TxRules, utxo: UtxoSet, txs: seq<Tx>, height: int, time: uint32)
    requires |txs| > 0 && TxsOk(rules, utxo, txs, |txs|, height, time)
    ensures BlockOps(rules, utxo, txs, |txs|, height) <= 20_000
  {
    hide TxOk, BlockOps, Fees, ApplyTxs;
  }

  // ----- Facts about the reference semantics -----

  lemma {:induction false} TxsOkPrefix(rules: TxRules, utxo: UtxoSet, txs: seq<Tx>, m: nat, n: nat, height: int, time: uint32)
    requires m <= n <= |txs|
    requires TxsOk(rules, utxo, txs, n, height, time)
    ensures TxsOk(rules, utxo, txs, m, height, time)
    decreases n
  {
    hide TxOk, BlockOps, Fees, ApplyTxs;
    if m < n {
      TxsOkPrefix(rules, utxo, txs, m, n - 1, height, time);
    }
  }

  lemma {:induction false} InputsOkPrefix(rules: TxRules, utxo: UtxoSet, tx: Tx, m: nat, n: nat, height: int)
    requires m <= n <= |tx.ins|
    requires InputsOk(rules, utxo, tx, n, height)
    ensures InputsOk(rules, utxo, tx, m, height)
    decreases n
  {
    if m < n {
      InputsOkPrefix(rules, utxo, tx, m, n - 1, height);
    }
  }

  lemma {:induction false} OutputsOkPrefix(outs: seq<TxOut>, m: nat, n: nat)
    requires m <= n <= |outs|
    requires OutputsOk(outs, n)
    ensures OutputsOk(outs, m)
    decreases n
  {
    if m < n {
      OutputsOkPrefix(outs, m, n - 1);
    }
  }

  lemma {:induction false} OutputsOkRange(outs: seq<TxOut>, n: nat)
    requires n <= |outs| && OutputsOk(outs, n)
    ensures 0 <= SumOut(outs, n) <= MAX_MONEY as int
    ensures forall i :: 0 <= i < n ==> MoneyRange(outs[i].value)
  {
    if n > 0 {
      OutputsOkRange(outs, n - 1);
    }
  }

  lemma {:induction false} InputsOkFacts(rules: TxRules, utxo: UtxoSet, tx: Tx, n: nat, height: int)
    requires n <= |tx.ins| && InputsOk(rules, utxo, tx, n, height)
    ensures forall j :: 0 <= j < n ==> tx.ins[j].prev in utxo && InputOk(rules, utxo, tx, j, height)
    ensures forall i, j :: 0 <= i < j < n ==> tx.ins[i].prev != tx.ins[j].prev
  {
    if n > 0 {
      InputsOkFacts(rules, utxo, tx, n - 1, height);
      forall i | 0 <= i < n - 1
        ensures tx.ins[i].prev != tx.ins[n - 1].prev
      {
        assert tx.ins[i].prev in InKeys(tx.ins, n - 1);
      }
    }
  }

  /** An unspent set is sane when every entry is filed under its own key, restates the output
    that key names, and holds an amount in range. */
  ghost predicate Sane(utxo: UtxoSet) {
    forall k :: k in utxo ==> EntrySane(k, utxo[k])
  }

  predicate EntrySane(k: OutPoint, e: Entry) {
    && e.key == k
    && MoneyRange(e.value)
    && k.hash.HashOf?
    && k.index < |k.hash.tx.outs|
    && e.value == k.hash.tx.outs[k.index].value
    && e.pkScript == k.hash.tx.outs[k.index].pkScript
  }

  lemma {:induction false} ApplyTxsSane(rules: TxRules, utxo: UtxoSet, txs: seq<Tx>, n: nat, height: int, time: uint32)
    requires n <= |txs| && Sane(utxo) && TxsOk(rules, utxo, txs, n, height, time)
    ensures Sane(ApplyTxs(utxo, txs, n, height))
  {
    if n > 0 {
      ApplyTxsSane(rules, utxo, txs, n - 1, height, time);
      var tx := txs[n - 1];
      OutputsOkRange(tx.outs, |tx.outs|);
      var after := ApplyTxs(utxo, txs, n, height);
      forall k | k in after
        ensures EntrySane(k, after[k])
      {
        if k in OutKeys(tx) {
          assert Created(tx, height, n == 1)[k] == OutEntry(tx, k.index, height, n == 1);
        }
      }
    }
  }
}
