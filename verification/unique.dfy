/** The code never checks the rule of BIP 30.  This module derives it: along a valid chain whose
  coinbase transactions are pairwise different, no transaction ever runs twice, so no block
  makes an output that is already unspent.
*/
module Unique {
  import opened Wire
  import opened Ledger
  import opened Batch
  import opened Supply

  /** One transaction of a chain, in execution order. */
  datatype Step = Step(tx: Tx, coinbase: bool, height: int)

  function StepsOf(block: Block, n: nat, height: int): seq<Step>
    requires n <= |block.txs|
  {
    seq(n, i requires 0 <= i < n => Step(block.txs[i], i == 0, height))
  }

  function Flat(path: seq<Block>): seq<Step> {
    if |path| == 0 then []
    else
      var last := path[|path| - 1];
      Flat(path[..|path| - 1]) + StepsOf(last, |last.txs|, |path| - 1)
  }

  function Run(steps: seq<Step>): UtxoSet {
    if |steps| == 0 then map[]
    else
      var s := steps[|steps| - 1];
      ApplyTx(Run(steps[..|steps| - 1]), s.tx, s.height, s.coinbase)
  }

  /** The part of validity the argument needs: a spender has an input, and it is unspent. */
  predicate StepOk(utxo: UtxoSet, s: Step) {
    if s.coinbase then IsCoinbase(s.tx)
    else !IsCoinbase(s.tx) && |s.tx.ins| > 0 && s.tx.ins[0].prev in utxo
  }

  ghost predicate RunOk(steps: seq<Step>) {
    forall p :: 0 <= p < |steps| ==> StepOk(Run(steps[..p]), steps[p])
  }

  ghost predicate CoinbasesDiffer(steps: seq<Step>) {
    forall p, q :: 0 <= p < q < |steps| && steps[p].coinbase && steps[q].coinbase ==> steps[p].tx != steps[q].tx
  }

  /** An unspent key was made by some step and not spent by any later one. */
  lemma {:induction false} Maker(steps: seq<Step>, k: OutPoint) returns (q: nat)
    requires k in Run(steps)
    ensures q < |steps| && k in OutKeys(steps[q].tx)
    ensures forall r :: q < r < |steps| ==> k !in Spent(steps[r].tx, steps[r].coinbase)
  {
    var last := |steps| - 1;
    if k in OutKeys(steps[last].tx) {
      q := last;
    } else {
      q := Maker(steps[..last], k);
    }
  }

  /** No transaction runs twice.  Two runs of one spender would need its first input made twice,
    by the transaction that the input commits to: an infinite descent through hashes. */
  lemma {:induction false} RunsOnce(steps: seq<Step>, p: nat, q: nat)
    requires p < q < |steps| && RunOk(steps) && CoinbasesDiffer(steps)
    ensures steps[p].tx != steps[q].tx
    decreases steps[q].tx
  {
    var tx := steps[q].tx;
    assert StepOk(Run(steps[..p]), steps[p]) && StepOk(Run(steps[..q]), steps[q]);
    if steps[p].tx == tx && !steps[q].coinbase {
      var k := tx.ins[0].prev;
      var a := Maker(steps[..p], k);
      var b := Maker(steps[..q], k);
      assert k == tx.ins[0].prev && k in InKeys(tx.ins, |tx.ins|);
      assert steps[..q][p] == steps[p];
      assert b >= p;
      assert k.hash == HashOf(steps[a].tx) == HashOf(steps[b].tx);
      SmallerThanSpender(tx, 0);
      RunsOnce(steps, a, b);
    }
  }

  lemma SmallerThanSpender(tx: Tx, j: nat)
    requires j < |tx.ins| && tx.ins[j].prev.hash.HashOf?
    ensures (tx decreases to tx.ins[j].prev.hash.tx)
  {
    assert (tx decreases to tx.ins[j]);
  }

  // ----- Chains as runs -----

  lemma {:induction false} RunBlock(steps: seq<Step>, block: Block, n: nat, height: int)
    requires n <= |block.txs|
    ensures Run(steps + StepsOf(block, n, height)) == ApplyTxs(Run(steps), block.txs, n, height)
  {
    hide ApplyTx;
    var all := steps + StepsOf(block, n, height);
    if n == 0 {
      assert all == steps;
    } else {
      RunBlock(steps, block, n - 1, height);
      assert all[..|all| - 1] == steps + StepsOf(block, n - 1, height);
    }
  }

  lemma {:induction false} RunIsReplay(path: seq<Block>)
    ensures Run(Flat(path)) == Replay(path)
  {
    if |path| > 0 {
      var front, last := path[..|path| - 1], path[|path| - 1];
      RunIsReplay(front);
      RunBlock(Flat(front), last, |last.txs|, |front|);
    }
  }

  lemma BlockStepOk(rules: TxRules, utxo: UtxoSet, block: Block, i: nat, height: int)
    requires i < |block.txs| && BlockTxsOk(rules, utxo, block, height)
    ensures StepOk(ApplyTxs(utxo, block.txs, i, height), Step(block.txs[i], i == 0, height))
  {
    hide *;
    var txs, time := block.txs, block.header.time;
    BlockIsTxs(rules, utxo, block, height);
    TxsOkPrefix(rules, utxo, txs, i + 1, |txs|, height, time);
    LastTxOk(rules, utxo, txs, i, height, time);
    TxStepOk(rules, ApplyTxs(utxo, txs, i, height), txs[i], i == 0, height, time);
  }

  lemma BlockIsTxs(rules: TxRules, utxo: UtxoSet, block: Block, height: int)
    requires BlockTxsOk(rules, utxo, block, height)
    ensures TxsOk(rules, utxo, block.txs, |block.txs|, height, block.header.time)
    ensures |block.txs| > 0 && IsCoinbase(block.txs[0])
  {
    hide TxsOk;
  }

  lemma LastTxOk(rules: TxRules, utxo: UtxoSet, txs: seq<Tx>, i: nat, height: int, time: uint32)
    requires i < |txs| && TxsOk(rules, utxo, txs, i + 1, height, time)
    ensures TxOk(rules, ApplyTxs(utxo, txs, i, height), txs[i], i == 0, height, time)
  {
    hide TxOk, ApplyTxs, BlockOps, Fees;
  }

  lemma TxStepOk(rules: TxRules, utxo: UtxoSet, tx: Tx, coinbase: bool, height: int, time: uint32)
    requires TxOk(rules, utxo, tx, coinbase, height, time) && (coinbase ==> IsCoinbase(tx))
    ensures StepOk(utxo, Step(tx, coinbase, height))
  {
    hide OutputsOk, TxOps, TxFee, InputsOk, IsFinalizedTx;
    if !coinbase {
      InputsOkFacts(rules, utxo, tx, |tx.ins|, height);
    }
  }

  lemma RunOkAppend(steps: seq<Step>, s: Step)
    requires RunOk(steps) && StepOk(Run(steps), s)
    ensures RunOk(steps + [s])
  {
    var all := steps + [s];
    forall p | 0 <= p < |all|
      ensures StepOk(Run(all[..p]), all[p])
    {
      assert all[..p] == if p < |steps| then steps[..p] else steps;
      hide *;
    }
  }

  lemma {:induction false} FlatBlockOk(rules: TxRules, steps: seq<Step>, block: Block, n: nat, height: int)
    requires n <= |block.txs| && RunOk(steps) && BlockTxsOk(rules, Run(steps), block, height)
    ensures RunOk(steps + StepsOf(block, n, height))
  {
    hide RunOk, BlockTxsOk, StepOk, Run;
    if n == 0 {
      assert steps + StepsOf(block, 0, height) == steps;
    } else {
      FlatBlockOk(rules, steps, block, n - 1, height);
      RunBlock(steps, block, n - 1, height);
      BlockStepOk(rules, Run(steps), block, n - 1, height);
      RunOkAppend(steps + StepsOf(block, n - 1, height), Step(block.txs[n - 1], n == 1, height));
      assert steps + StepsOf(block, n, height)
          == (steps + StepsOf(block, n - 1, height)) + [Step(block.txs[n - 1], n == 1, height)];
    }
  }

  lemma {:induction false} FlatOk(rules: TxRules, path: seq<Block>)
    requires TxsValid(rules, path)
    ensures RunOk(Flat(path))
  {
    hide RunOk, BlockTxsOk, TxsValid, Run, Replay;
    if |path| > 0 {
      var front, last := path[..|path| - 1], path[|path| - 1];
      TxsValidFront(rules, path);
      FlatOk(rules, front);
      RunIsReplay(front);
      FlatBlockOk(rules, Flat(front), last, |last.txs|, |front|);
    } else {
      EmptyRunOk();
    }
  }

  lemma EmptyRunOk()
    ensures RunOk([])
  {
  }

  ghost predicate CoinbasesDistinct(path: seq<Block>) {
    forall i, j :: 0 <= i < j < |path| && |path[i].txs| > 0 && |path[j].txs| > 0 ==> path[i].txs[0] != path[j].txs[0]
  }

  /** Where a coinbase step of a flattened chain comes from. */
  lemma {:induction false} FlatOrigin(path: seq<Block>, p: nat) returns (i: nat)
    requires p < |Flat(path)|
    ensures i < |path| && |path[i].txs| > 0
    ensures Flat(path)[p].coinbase ==> Flat(path)[p].tx == path[i].txs[0] && p == |Flat(path[..i])|
  {
    var front, last := path[..|path| - 1], path[|path| - 1];
    if p < |Flat(front)| {
      i := FlatOrigin(front, p);
      assert front[..i] == path[..i];
    } else {
      i := |front|;
    }
  }

  lemma FlatCoinbases(path: seq<Block>)
    requires CoinbasesDistinct(path)
    ensures CoinbasesDiffer(Flat(path))
  {
    var steps := Flat(path);
    forall p, q | 0 <= p < q < |steps| && steps[p].coinbase && steps[q].coinbase
      ensures steps[p].tx != steps[q].tx
    {
      var i := FlatOrigin(path, p);
      var j := FlatOrigin(path, q);
      assert i != j;
      assert if i < j then path[i].txs[0] != path[j].txs[0] else path[j].txs[0] != path[i].txs[0];
    }
  }

  /** The rule of BIP 30 holds on every valid chain with pairwise different coinbases: the last
    block makes no output that the chain below it left unspent. */
  lemma LastBlockIsFresh(rules: TxRules, path: seq<Block>)
    requires |path| > 0 && TxsValid(rules, path) && CoinbasesDistinct(path)
    ensures Fresh(Replay(path[..|path| - 1]), path[|path| - 1].txs)
  {
    var front, last := path[..|path| - 1], path[|path| - 1];
    FlatOk(rules, path);
    FlatCoinbases(path);
    RunIsReplay(front);
    forall i, k | 0 <= i < |last.txs| && k in OutKeys(last.txs[i])
      ensures k !in Replay(front)
    {
      NotYetMade(Flat(front), StepsOf(last, |last.txs|, |front|), i, k);
      hide *;
    }
  }

  lemma NotYetMade(below: seq<Step>, more: seq<Step>, i: nat, k: OutPoint)
    requires i < |more| && RunOk(below + more) && CoinbasesDiffer(below + more)
    requires k in OutKeys(more[i].tx)
    ensures k !in Run(below)
  {
    hide RunOk, CoinbasesDiffer, Run;
    if k in Run(below) {
      var q := Maker(below, k);
      var steps := below + more;
      assert steps[q] == below[q] && steps[|below| + i] == more[i];
      RunsOnce(steps, q, |below| + i);
    }
  }

  lemma CoinbasesPrefix(path: seq<Block>, n: nat)
    requires CoinbasesDistinct(path) && n <= |path|
    ensures CoinbasesDistinct(path[..n])
  {
  }

  /** On such a chain every block is acceptable, and fresh, on the replay of the blocks below it. */
  lemma NextOk(rules: TxRules, path: seq<Block>, h: nat)
    requires h < |path| && TxsValid(rules, path) && CoinbasesDistinct(path)
    ensures var utxo := Replay(path[..h]);
      && Sane(utxo) && Fresh(utxo, path[h].txs) && BlockTxsOk(rules, utxo, path[h], h)
      && Replay(path[..h + 1]) == ApplyBlock(utxo, path[h], h)
  {
    var upTo := path[..h + 1];
    assert upTo[..h] == path[..h] && upTo[h] == path[h];
    TxsValidPrefix(rules, path, h + 1);
    CoinbasesPrefix(path, h + 1);
    LastBlockIsFresh(rules, upTo);
    TxsValidPrefix(rules, path, h);
    SupplyBound(rules, path[..h]);
    hide Sane, Fresh, BlockTxsOk, ApplyBlock, CoinbasesDistinct, InRange;
  }
}
