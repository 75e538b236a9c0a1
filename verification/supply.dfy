/** Conservation of money: what a block does to the total of the unspent set, and the bound the
  subsidy schedule puts on it over a whole chain.
*/
module Supply {
  import opened Wire
  import opened ChainCfg
  import opened Ledger
  import opened Batch

  // ----- Totals of unspent sets -----

  ghost function Total(m: UtxoSet): int {
    if |m| == 0 then 0
    else
      var k :| k in m;
      m[k].value as int + Total(m - {k})
  }

  lemma {:induction false} TotalDrop(m: UtxoSet, k: OutPoint)
    requires k in m
    ensures Total(m) == m[k].value as int + Total(m - {k})
    decreases |m|
  {
    var p :| p in m && Total(m) == m[p].value as int + Total(m - {p});
    if p != k {
      TotalDrop(m - {p}, k);
      TotalDrop(m - {k}, p);
      assert m - {p} - {k} == m - {k} - {p};
    }
  }

  lemma TotalPut(m: UtxoSet, k: OutPoint, e: Entry)
    ensures Total(m[k := e]) == Total(m - {k}) + e.value as int
  {
    TotalDrop(m[k := e], k);
    assert m[k := e] - {k} == m - {k};
  }

  lemma {:induction false} TotalSpend(rules: TxRules, utxo: UtxoSet, tx: Tx, n: nat, height: int)
    requires n <= |tx.ins| && InputsOk(rules, utxo, tx, n, height)
    ensures Total(utxo - InKeys(tx.ins, n)) == Total(utxo) - SumIn(utxo, tx.ins, n)
  {
    hide Total;
    if n == 0 {
      assert utxo - InKeys(tx.ins, 0) == utxo;
    } else {
      TotalSpend(rules, utxo, tx, n - 1, height);
      InKeysStep(tx.ins, n - 1);
      var rest, key := utxo - InKeys(tx.ins, n - 1), tx.ins[n - 1].prev;
      TotalDrop(rest, key);
      assert rest - {key} == utxo - InKeys(tx.ins, n);
    }
  }

  /** Writing outputs never adds more than their sum, and exactly it when no key is overwritten. */
  lemma {:induction false} TotalCreate(m: UtxoSet, tx: Tx, n: nat, height: int, coinbase: bool)
    requires n <= |tx.outs| && InRange(m)
    ensures Total(m + CreatedFirst(tx, n, height, coinbase)) <= Total(m) + SumOut(tx.outs, n)
    ensures OutKeys(tx) !! m.Keys ==>
      Total(m + CreatedFirst(tx, n, height, coinbase)) == Total(m) + SumOut(tx.outs, n)
  {
    hide Total;
    if n == 0 {
      assert m + CreatedFirst(tx, 0, height, coinbase) == m;
    } else {
      TotalCreate(m, tx, n - 1, height, coinbase);
      var part, e := m + CreatedFirst(tx, n - 1, height, coinbase), OutEntry(tx, n - 1, height, coinbase);
      CreatedOnto(m, tx, n - 1, height, coinbase);
      assert e.key in OutKeys(tx) && (e.key in part ==> e.key in m && part[e.key] == m[e.key]);
      hide CreatedFirst, OutKeys;
      TotalWrite(part, e);
    }
  }

  lemma TotalWrite(m: UtxoSet, e: Entry)
    requires e.key in m ==> MoneyRange(m[e.key].value)
    ensures Total(m[e.key := e]) <= Total(m) + e.value as int
    ensures e.key !in m ==> Total(m[e.key := e]) == Total(m) + e.value as int
  {
    TotalPut(m, e.key, e);
    if e.key in m {
      TotalDrop(m, e.key);
    } else {
      assert m - {e.key} == m;
    }
  }

  lemma TotalTx(rules: TxRules, utxo: UtxoSet, tx: Tx, coinbase: bool, height: int, time: uint32)
    requires InRange(utxo) && TxOk(rules, utxo, tx, coinbase, height, time)
    ensures var out := SumOut(tx.outs, |tx.outs|);
      var gain := if coinbase then out else -TxFee(utxo, tx);
      && Total(ApplyTx(utxo, tx, height, coinbase)) <= Total(utxo) + gain
      && (OutKeys(tx) !! utxo.Keys ==> Total(ApplyTx(utxo, tx, height, coinbase)) == Total(utxo) + gain)
  {
    hide Total, TxOps, OutputsOk, InputsOk, SumIn, SumOut;
    var rest := utxo - Spent(tx, coinbase);
    if coinbase {
      assert rest == utxo;
    } else {
      TotalSpend(rules, utxo, tx, |tx.ins|, height);
    }
    TotalCreate(rest, tx, |tx.outs|, height, coinbase);
    assert CreatedFirst(tx, |tx.outs|, height, coinbase) == Created(tx, height, coinbase);
    assert OutKeys(tx) !! utxo.Keys ==> OutKeys(tx) !! rest.Keys;
  }

  lemma {:induction false} ApplyTxsInRange(rules: TxRules, utxo: UtxoSet, txs: seq<Tx>, n: nat, height: int, time: uint32)
    requires n <= |txs| && InRange(utxo) && TxsOk(rules, utxo, txs, n, height, time)
    ensures InRange(ApplyTxs(utxo, txs, n, height))
  {
    PendingInRange(rules, utxo, txs, n, height, time);
    ViewIsSequential(utxo, txs, n, height);
  }

  /** Later transactions of a block make keys that are neither stored nor pending. */
  lemma FreshKeys(rules: TxRules, utxo: UtxoSet, txs: seq<Tx>, n: nat, height: int, time: uint32)
    requires n < |txs| && TxsOk(rules, utxo, txs, n + 1, height, time) && Fresh(utxo, txs)
    ensures OutKeys(txs[n]) !! ApplyTxs(utxo, txs, n, height).Keys
  {
    hide TxOk, BlockOps, Fees, ApplyTxs;
    ViewIsSequential(utxo, txs, n, height);
    PendingKeys(txs, n, height);
    hide Pending, Seen;
    assert forall i :: 0 <= i < n ==> txs[..n][i] == txs[i];
    assert forall k, i :: 0 <= i < n && k in OutKeys(txs[i]) ==> k.hash == HashOf(txs[i]);
    assert forall k :: k in OutKeys(txs[n]) ==> k.hash == HashOf(txs[n]);
  }

  lemma {:induction false} TotalTxs(rules: TxRules, utxo: UtxoSet, txs: seq<Tx>, n: nat, height: int, time: uint32)
    requires 0 < n <= |txs| && InRange(utxo) && TxsOk(rules, utxo, txs, n, height, time)
    ensures var out := SumOut(txs[0].outs, |txs[0].outs|);
      var after := Total(ApplyTxs(utxo, txs, n, height));
      && after <= Total(utxo) + out - Fees(utxo, txs, n, height)
      && (Fresh(utxo, txs) ==> after == Total(utxo) + out - Fees(utxo, txs, n, height))
  {
    hide Total, TxOk, ApplyTx, BlockOps, SumOut, TxFee, Fresh;
    if n > 1 {
      TotalTxs(rules, utxo, txs, n - 1, height, time);
    } else {
      assert ApplyTxs(utxo, txs, 0, height) == utxo;
    }
    ApplyTxsInRange(rules, utxo, txs, n - 1, height, time);
    TotalTx(rules, ApplyTxs(utxo, txs, n - 1, height), txs[n - 1], n == 1, height, time);
    if Fresh(utxo, txs) {
      FreshKeys(rules, utxo, txs, n - 1, height, time);
    }
  }

  /** A connected block changes the total by its coinbase less its fees (never by more, even if
    it overwrites), hence raises it by at most the block subsidy. */
  lemma BlockConservation(rules: TxRules, utxo: UtxoSet, block: Block, height: int)
    requires InRange(utxo) && BlockTxsOk(rules, utxo, block, height)
    ensures var out := SumOut(block.txs[0].outs, |block.txs[0].outs|);
      var fees := Fees(utxo, block.txs, |block.txs|, height);
      Fresh(utxo, block.txs) ==> Total(ApplyBlock(utxo, block, height)) == Total(utxo) + out - fees
    ensures Total(ApplyBlock(utxo, block, height)) <= Total(utxo) + BlockSubsidy(height) as int
  {
    TotalTxs(rules, utxo, block.txs, |block.txs|, height, block.header.time);
  }

  // ----- Over a whole chain -----

  /** Every block was acceptable on the replay of the blocks below it. */
  ghost predicate TxsValid(rules: TxRules, path: seq<Block>) {
    forall i :: 0 <= i < |path| ==> BlockTxsOk(rules, Replay(path[..i]), path[i], i)
  }

  lemma TxsValidFront(rules: TxRules, path: seq<Block>)
    requires |path| > 0 && TxsValid(rules, path)
    ensures var front := path[..|path| - 1];
      && TxsValid(rules, front)
      && BlockTxsOk(rules, Replay(front), path[|path| - 1], |path| - 1)
  {
    hide BlockTxsOk, Replay;
    var front := path[..|path| - 1];
    forall i | 0 <= i < |front|
      ensures BlockTxsOk(rules, Replay(front[..i]), front[i], i)
    {
      assert front[..i] == path[..i] && front[i] == path[i];
    }
  }

  lemma TxsValidPrefix(rules: TxRules, path: seq<Block>, n: nat)
    requires TxsValid(rules, path) && n <= |path|
    ensures TxsValid(rules, path[..n])
  {
    var p := path[..n];
    forall i | 0 <= i < n
      ensures BlockTxsOk(rules, Replay(p[..i]), p[i], i)
    {
      assert p[..i] == path[..i];
      hide BlockTxsOk;
    }
  }

  /** The subsidies of heights 0 .. n-1. */
  function SubsidySum(n: nat): nat {
    if n == 0 then 0 else SubsidySum(n - 1) + BlockSubsidy(n - 1) as nat
  }

  lemma {:induction false} SupplyBound(rules: TxRules, path: seq<Block>)
    requires TxsValid(rules, path)
    ensures Sane(Replay(path)) && InRange(Replay(path))
    ensures Total(Replay(path)) <= SubsidySum(|path|)
  {
    if |path| > 0 {
      var front, last := path[..|path| - 1], path[|path| - 1];
      TxsValidFront(rules, path);
      SupplyBound(rules, front);
      BlockConservation(rules, Replay(front), last, |front|);
      ApplyTxsSane(rules, Replay(front), last.txs, |last.txs|, |front|, last.header.time);
    }
  }

  // ----- The schedule -----

  lemma {:induction false} ShiftMonotone(v: nat, m: nat, n: nat)
    requires m <= n
    ensures ShiftRight(v, n) <= ShiftRight(v, m)
    decreases n
  {
    if m < n {
      ShiftMonotone(v, m, n - 1);
    }
  }

  function Reward(era: nat): (r: nat)
    ensures r <= SUBSIDY as int
  {
    ShiftRightShrinks(SUBSIDY as nat, era);
    ShiftRight(SUBSIDY as nat, era)
  }

  const ERAS := 64

  lemma EraReward(era: nat, i: nat)
    requires i < HALVING_INTERVAL
    ensures BlockSubsidy(era * HALVING_INTERVAL + i) as int == if era < ERAS then Reward(era) else 0
  {
    assert (era * HALVING_INTERVAL + i) / HALVING_INTERVAL == era;
  }

  /** Within one era the sum grows by the era's reward per block. */
  lemma {:induction false} EraSum(era: nat, b: nat)
    requires era < ERAS && b <= HALVING_INTERVAL
    ensures SubsidySum(era * HALVING_INTERVAL + b) == SubsidySum(era * HALVING_INTERVAL) + b * Reward(era)
  {
    hide Reward, BlockSubsidy;
    if b > 0 {
      EraSum(era, b - 1);
      EraReward(era, b - 1);
      assert b * Reward(era) == (b - 1) * Reward(era) + Reward(era);
    }
  }

  /** Blocks past the last paying era add nothing. */
  lemma {:induction false} PaidOut(era: nat, n: nat)
    requires era * HALVING_INTERVAL <= n
    requires era >= ERAS || Reward(era) == 0
    ensures SubsidySum(n) == SubsidySum(era * HALVING_INTERVAL)
    decreases n
  {
    if era * HALVING_INTERVAL < n {
      PaidOut(era, n - 1);
      var e, i := (n - 1) / HALVING_INTERVAL, (n - 1) % HALVING_INTERVAL;
      EraReward(e, i);
      ShiftMonotone(SUBSIDY as nat, era, e);
    }
  }

  /** All eras together stay below twice the first one. */
  lemma {:induction false} EraBound(era: nat)
    requires era <= ERAS
    ensures SubsidySum(era * HALVING_INTERVAL) + 2 * HALVING_INTERVAL * Reward(era)
         <= 2 * HALVING_INTERVAL * SUBSIDY as int
  {
    if era > 0 {
      EraBound(era - 1);
      EraSum(era - 1, HALVING_INTERVAL);
      assert 2 * Reward(era) <= Reward(era - 1);
    }
  }

  lemma {:induction false} SubsidySumMonotone(m: nat, n: nat)
    requires m <= n
    ensures SubsidySum(m) <= SubsidySum(n)
    decreases n
  {
    if m < n {
      SubsidySumMonotone(m, n - 1);
    }
  }

  /** The schedule never pays out more than the money cap, at any height. */
  lemma SubsidyCap(n: nat)
    ensures SubsidySum(n) <= MAX_MONEY as int
  {
    EraBound(ERAS);
    if n <= ERAS * HALVING_INTERVAL {
      SubsidySumMonotone(n, ERAS * HALVING_INTERVAL);
    } else {
      PaidOut(ERAS, n);
    }
  }

  /** At every tip the whole unspent set is worth at most what has been issued, and so at most
    the money cap. */
  lemma SupplyCap(rules: TxRules, path: seq<Block>)
    requires TxsValid(rules, path)
    ensures Total(Replay(path)) <= SubsidySum(|path|) <= MAX_MONEY as int
  {
    SupplyBound(rules, path);
    SubsidyCap(|path|);
  }

  type int32 = x: int | -0x8000_0000 <= x < 0x8000_0000

  /** The status report's issuance loop, era by era, computes the schedule's sum. */
  method IssuedSubsidyThroughHeight(height: int32) returns (total: int64)
    ensures total as int == if height < 0 then 0 else SubsidySum(height + 1)
  {
    total := 0;
    if height < 0 {
      return;
    }
    var end := height as int64;
    var interval := HALVING_INTERVAL as int64;
    var era: int64 := 0;
    while era < 64
      invariant 0 <= era <= 64
      invariant era as int * HALVING_INTERVAL <= height + HALVING_INTERVAL
      invariant total as int == SubsidySum(if era as int * HALVING_INTERVAL <= height then era as int * HALVING_INTERVAL else height + 1)
    {
      var reward := Reward(era as nat) as int64;
      if reward <= 0 {
        break;
      }
      var startHeight := era * interval;
      if startHeight > end {
        break;
      }
      var eraEnd := startHeight + interval - 1;
      if eraEnd > end {
        eraEnd := end;
      }
      var blocks := eraEnd - startHeight + 1;
      EraSum(era as nat, blocks as nat);
      SubsidyCap(startHeight as nat + blocks as nat);
      total := total + blocks * reward;
      era := era + 1;
    }
    if era as int * HALVING_INTERVAL <= height {
      PaidOut(era as nat, height + 1);
    }
    SubsidyCap(height + 1);
    if total > MAX_MONEY {
      return MAX_MONEY;
    }
  }
}
