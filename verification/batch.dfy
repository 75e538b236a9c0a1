/** The node's block validator.  It runs a whole block against the stored unspent set without
  changing it: outputs made in the block live in a pending map, inputs consume from that map
  first and from the store second, and the result is one batched difference.
*/
module Batch {
  import opened Wire
  import opened ChainCfg
  import opened Ledger

  /** What a block does to the store: entries to write, keys to remove, and their old entries. */
  datatype Diff = Diff(adds: seq<Entry>, spends: seq<OutPoint>, spent: seq<Entry>)

  /** The local variables of the validation loop. */
  datatype Work = Work(
    pending: UtxoSet,
    order: seq<OutPoint>,
    spends: seq<OutPoint>,
    spent: seq<Entry>,
    seen: set<OutPoint>,
    fees: int64,
    sigOps: nat)

  // ----- What the batch variables are, as functions of the transactions alone -----

  /** Outputs made by the first n transactions that the block has not consumed itself. */
  function Pending(txs: seq<Tx>, n: nat, height: int): UtxoSet
    requires n <= |txs|
  {
    if n == 0 then map[] else ApplyTx(Pending(txs, n - 1, height), txs[n - 1], height, n == 1)
  }

  /** Every outpoint the first n transactions spend. */
  function Seen(txs: seq<Tx>, n: nat): set<OutPoint>
    requires n <= |txs|
  {
    if n == 0 then {} else Seen(txs, n - 1) + Spent(txs[n - 1], n == 1)
  }

  /** The outpoints consumed from the pending map, never from the store. */
  function Consumed(txs: seq<Tx>, n: nat, height: int): set<OutPoint>
    requires n <= |txs|
  {
    if n == 0 then {}
    else Consumed(txs, n - 1, height) + Spent(txs[n - 1], n == 1) * Pending(txs, n - 1, height).Keys
  }

  /** What the batch can still spend after n transactions. */
  function View(utxo: UtxoSet, txs: seq<Tx>, n: nat, height: int): UtxoSet
    requires n <= |txs|
  {
    (utxo - Seen(txs, n)) + Pending(txs, n, height)
  }

  lemma ViewStep(utxo: UtxoSet, seen: set<OutPoint>, pending: UtxoSet, spent: set<OutPoint>, made: UtxoSet)
    ensures (((utxo - seen) + pending) - spent) + made == (utxo - (seen + spent)) + ((pending - spent) + made)
  {
    var a, b := (((utxo - seen) + pending) - spent) + made, (utxo - (seen + spent)) + ((pending - spent) + made);
    assert a.Keys == b.Keys;
    forall k | k in a
      ensures a[k] == b[k]
    {
    }
  }

  /** The batched view and the set left by one-at-a-time execution are the same map. */
  lemma {:induction false} ViewIsSequential(utxo: UtxoSet, txs: seq<Tx>, n: nat, height: int)
    requires n <= |txs|
    ensures ApplyTxs(utxo, txs, n, height) == View(utxo, txs, n, height)
  {
    if n > 0 {
      ViewIsSequential(utxo, txs, n - 1, height);
      var tx, cb := txs[n - 1], n == 1;
      ViewStep(utxo, Seen(txs, n - 1), Pending(txs, n - 1, height), Spent(tx, cb), Created(tx, height, cb));
    }
  }

  /** No output the block makes is in the unspent set already (the rule of BIP 30). */
  ghost predicate Fresh(utxo: UtxoSet, txs: seq<Tx>) {
    forall i :: 0 <= i < |txs| ==> OutKeys(txs[i]) !! utxo.Keys
  }

  // ----- The difference -----

  function WriteAll(utxo: UtxoSet, es: seq<Entry>): UtxoSet {
    if |es| == 0 then utxo
    else WriteAll(utxo, es[..|es| - 1])[es[|es| - 1].key := es[|es| - 1]]
  }

  function KeysOf(es: seq<Entry>): set<OutPoint> {
    set i | 0 <= i < |es| :: es[i].key
  }

  function SetOf(ks: seq<OutPoint>): set<OutPoint> {
    set i | 0 <= i < |ks| :: ks[i]
  }

  /** Connecting removes the spends and then writes the adds. */
  function Commit(utxo: UtxoSet, d: Diff): UtxoSet {
    WriteAll(utxo - SetOf(d.spends), d.adds)
  }

  /** Disconnecting removes the added keys and then writes the old entries back. */
  function Revert(utxo: UtxoSet, d: Diff): UtxoSet {
    WriteAll(utxo - KeysOf(d.adds), d.spent)
  }

  /** The entries of `es` are exactly the bindings of `m`, each written once. */
  ghost predicate Lists(es: seq<Entry>, m: UtxoSet) {
    && KeysOf(es) == m.Keys
    && (forall i :: 0 <= i < |es| ==> es[i].key in m && m[es[i].key] == es[i])
    && (forall i, j :: 0 <= i < j < |es| ==> es[i].key != es[j].key)
  }

  function Restrict(utxo: UtxoSet, keys: set<OutPoint>): UtxoSet {
    map k | k in keys && k in utxo :: utxo[k]
  }

  /** The difference is exact: it adds the pending outputs, spends what the block took from the
    store, and remembers the entries the store held. */
  ghost predicate Exact(utxo: UtxoSet, txs: seq<Tx>, height: int, d: Diff) {
    var n := |txs|;
    var external := Seen(txs, n) - Consumed(txs, n, height);
    && Lists(d.adds, Pending(txs, n, height))
    && external <= utxo.Keys
    && SetOf(d.spends) == external
    && |d.spends| == |d.spent|
    && (forall i :: 0 <= i < |d.spends| ==> d.spends[i] == d.spent[i].key)
    && Lists(d.spent, Restrict(utxo, external))
  }

  lemma {:induction false} WriteAllAdds(utxo: UtxoSet, es: seq<Entry>, m: UtxoSet)
    requires forall i :: 0 <= i < |es| ==> es[i].key in m && m[es[i].key] == es[i]
    ensures WriteAll(utxo, es).Keys == utxo.Keys + KeysOf(es)
    ensures forall k :: k in KeysOf(es) ==> k in m && WriteAll(utxo, es)[k] == m[k]
    ensures forall k :: k in utxo && k !in KeysOf(es) ==> WriteAll(utxo, es)[k] == utxo[k]
  {
    if |es| > 0 {
      var front := es[..|es| - 1];
      WriteAllAdds(utxo, front, m);
      assert KeysOf(es) == KeysOf(front) + {es[|es| - 1].key} by {
        forall k | k in KeysOf(es)
          ensures k in KeysOf(front) + {es[|es| - 1].key}
        {
          var i :| 0 <= i < |es| && es[i].key == k;
          if i < |es| - 1 {
            assert front[i].key == k;
          }
        }
        forall k | k in KeysOf(front)
          ensures k in KeysOf(es)
        {
          var i :| 0 <= i < |front| && front[i].key == k;
          assert es[i].key == k;
        }
      }
    }
  }

  lemma WriteAllIsMerge(utxo: UtxoSet, es: seq<Entry>, m: UtxoSet)
    requires Lists(es, m)
    ensures WriteAll(utxo, es) == utxo + m
  {
    WriteAllAdds(utxo, es, m);
  }

  lemma CommitIs(utxo: UtxoSet, txs: seq<Tx>, height: int, d: Diff)
    requires Exact(utxo, txs, height, d)
    ensures Commit(utxo, d)
         == (utxo - (Seen(txs, |txs|) - Consumed(txs, |txs|, height))) + Pending(txs, |txs|, height)
  {
    WriteAllIsMerge(utxo - SetOf(d.spends), d.adds, Pending(txs, |txs|, height));
  }

  /** The batched difference refines sequential execution exactly when no output that the block
    both makes and spends was in the store under the same key. */
  lemma BatchRefinesSequential(utxo: UtxoSet, txs: seq<Tx>, height: int, d: Diff)
    requires Exact(utxo, txs, height, d)
    ensures Commit(utxo, d) == ApplyTxs(utxo, txs, |txs|, height)
       <==> (forall k :: k in Consumed(txs, |txs|, height) && k in utxo ==> k in Pending(txs, |txs|, height))
  {
    CommitIs(utxo, txs, height, d);
    ViewIsSequential(utxo, txs, |txs|, height);
    ConsumedIsSeen(txs, |txs|, height);
    DropLess(utxo, Seen(txs, |txs|), Consumed(txs, |txs|, height), Pending(txs, |txs|, height));
  }

  lemma DropLess(utxo: UtxoSet, seen: set<OutPoint>, consumed: set<OutPoint>, pending: UtxoSet)
    requires consumed <= seen
    ensures (utxo - (seen - consumed)) + pending == (utxo - seen) + pending
       <==> (forall k :: k in consumed && k in utxo ==> k in pending)
  {
    var a, b := (utxo - (seen - consumed)) + pending, (utxo - seen) + pending;
    if k :| k in consumed && k in utxo && k !in pending {
      assert k in a && k !in b;
    } else {
      assert a.Keys == b.Keys;
    }
  }

  lemma {:induction false} ConsumedIsSeen(txs: seq<Tx>, n: nat, height: int)
    requires n <= |txs|
    ensures Consumed(txs, n, height) <= Seen(txs, n)
  {
    if n > 0 {
      ConsumedIsSeen(txs, n - 1, height);
      var spent, keys := Spent(txs[n - 1], n == 1), Pending(txs, n - 1, height).Keys;
      forall k | k in Consumed(txs, n, height)
        ensures k in Seen(txs, n)
      {
        assert k in Consumed(txs, n - 1, height) || k in spent * keys;
      }
    }
  }

  /** Undo restores the store exactly when every key the block adds was either absent before or
    among the block's own spends. */
  lemma RevertUndoesCommit(utxo: UtxoSet, txs: seq<Tx>, height: int, d: Diff)
    requires Exact(utxo, txs, height, d)
    ensures Revert(Commit(utxo, d), d) == utxo
       <==> (forall k :: k in Pending(txs, |txs|, height) && k in utxo ==> k in SetOf(d.spends))
  {
    var n := |txs|;
    var external := Seen(txs, n) - Consumed(txs, n, height);
    var pending := Pending(txs, n, height);
    CommitIs(utxo, txs, height, d);
    WriteAllIsMerge(Commit(utxo, d) - KeysOf(d.adds), d.spent, Restrict(utxo, external));
    var back := Revert(Commit(utxo, d), d);
    assert back == (((utxo - external) + pending) - pending.Keys) + Restrict(utxo, external);
    if k :| k in pending && k in utxo && k !in external {
      assert k !in back;
    } else {
      forall k | k in utxo
        ensures k in back && back[k] == utxo[k]
      {
      }
      assert back.Keys == utxo.Keys;
    }
  }

  lemma {:induction false} PendingKeys(txs: seq<Tx>, n: nat, height: int)
    requires n <= |txs|
    ensures forall k :: k in Pending(txs, n, height) || k in Consumed(txs, n, height)
              ==> exists i :: 0 <= i < n && k in OutKeys(txs[i])
  {
    if n > 0 {
      PendingKeys(txs, n - 1, height);
      var before, spent := Pending(txs, n - 1, height), Spent(txs[n - 1], n == 1);
      assert Consumed(txs, n, height) == Consumed(txs, n - 1, height) + spent * before.Keys;
      assert Pending(txs, n, height).Keys == (before.Keys - spent) + OutKeys(txs[n - 1]);
    }
  }

  /** Under the rule of BIP 30 both conditions hold: the batch refines sequential execution and
    undo is its inverse. */
  lemma FreshBlock(utxo: UtxoSet, txs: seq<Tx>, height: int, d: Diff)
    requires Exact(utxo, txs, height, d) && Fresh(utxo, txs)
    ensures Commit(utxo, d) == ApplyTxs(utxo, txs, |txs|, height)
    ensures Revert(Commit(utxo, d), d) == utxo
  {
    PendingKeys(txs, |txs|, height);
    BatchRefinesSequential(utxo, txs, height, d);
    RevertUndoesCommit(utxo, txs, height, d);
  }

  // ----- The validator itself -----

  lemma SetOfStep(ks: seq<OutPoint>, k: OutPoint)
    ensures SetOf(ks + [k]) == SetOf(ks) + {k}
  {
    var all := ks + [k];
    forall x | x in SetOf(ks) + {k}
      ensures x in SetOf(all)
    {
      if x in SetOf(ks) {
        var i :| 0 <= i < |ks| && ks[i] == x;
        assert all[i] == x;
      } else {
        assert all[|ks|] == x;
      }
    }
  }

  ghost predicate InRange(utxo: UtxoSet) {
    forall k :: k in utxo ==> MoneyRange(utxo[k].value) && utxo[k].key == k
  }

  ghost predicate Distinct(ks: seq<OutPoint>) {
    forall i, j :: 0 <= i < j < |ks| ==> ks[i] != ks[j]
  }

  /** `spent` restates the store's entries under `spends`, each key once. */
  ghost predicate Aligned(utxo: UtxoSet, spends: seq<OutPoint>, spent: seq<Entry>) {
    && |spends| == |spent|
    && Distinct(spends)
    && forall i :: 0 <= i < |spends| ==> spends[i] in utxo && spent[i] == utxo[spends[i]]
  }

  lemma AlignedStep(utxo: UtxoSet, spends: seq<OutPoint>, spent: seq<Entry>, k: OutPoint)
    requires Aligned(utxo, spends, spent) && k in utxo && k !in SetOf(spends)
    ensures Aligned(utxo, spends + [k], spent + [utxo[k]])
  {
    forall i | 0 <= i < |spends|
      ensures spends[i] != k
    {
      assert spends[i] in SetOf(spends);
    }
  }

  /** The running totals over a transaction's outputs, with the entries they become. */
  method CreateOutputs(rules: TxRules, tx: Tx, height: int, coinbase: bool)
    returns (ok: bool, es: seq<Entry>, total: int64, ops: nat)
    ensures ok <==> OutputsOk(tx.outs, |tx.outs|)
    ensures ok ==>
      && |es| == |tx.outs|
      && (forall i :: 0 <= i < |es| ==> es[i] == OutEntry(tx, i, height, coinbase))
      && total as int == SumOut(tx.outs, |tx.outs|)
      && ops == OutOps(rules, tx.outs, |tx.outs|)
  {
    es, total, ops := [], 0, 0;
    for vout := 0 to |tx.outs|
      invariant OutputsOk(tx.outs, vout)
      invariant |es| == vout && forall i :: 0 <= i < vout ==> es[i] == OutEntry(tx, i, height, coinbase)
      invariant total as int == SumOut(tx.outs, vout) && 0 <= total <= MAX_MONEY
      invariant ops == OutOps(rules, tx.outs, vout)
    {
      if !MoneyRange(tx.outs[vout].value) || !MoneyRange(total + tx.outs[vout].value) {
        if OutputsOk(tx.outs, |tx.outs|) {
          OutputsOkPrefix(tx.outs, vout + 1, |tx.outs|);
        }
        return false, [], 0, 0;
      }
      total := total + tx.outs[vout].value;
      es := es + [OutEntry(tx, vout, height, coinbase)];
      ops := ops + rules.outSigOps(tx.outs[vout].pkScript);
    }
    ok := true;
  }

  /** Where the batch finds an input: never spent twice, pending outputs before the store. */
  function Lookup(utxo: UtxoSet, w: Work, key: OutPoint): Option<Entry> {
    if key in w.seen then None
    else if key in w.pending then Some(w.pending[key])
    else if key in utxo then Some(utxo[key])
    else None
  }

  function Take(utxo: UtxoSet, w: Work, key: OutPoint): Work
    requires Lookup(utxo, w, key).Some?
  {
    if key in w.pending then w.(seen := w.seen + {key}, pending := w.pending - {key})
    else w.(seen := w.seen + {key}, spends := w.spends + [key], spent := w.spent + [utxo[key]])
  }

  /** `w` is `w0` after spending the first j inputs. */
  ghost predicate Spending(utxo: UtxoSet, w0: Work, w: Work, ins: seq<TxIn>, j: nat)
    requires j <= |ins|
  {
    var keys := InKeys(ins, j);
    && keys !! w0.seen
    && w == Work(w0.pending - keys, w0.order, w.spends, w.spent, w0.seen + keys, w0.fees, w0.sigOps)
    && SetOf(w.spends) == SetOf(w0.spends) + (keys - w0.pending.Keys)
    && SetOf(w0.spends) <= w0.seen
    && Aligned(utxo, w.spends, w.spent)
  }

  lemma SpendingStep(utxo: UtxoSet, w0: Work, w: Work, ins: seq<TxIn>, j: nat)
    requires InRange(utxo) && j < |ins| && Spending(utxo, w0, w, ins, j)
    requires Lookup(utxo, w, ins[j].prev).Some?
    ensures Spending(utxo, w0, Take(utxo, w, ins[j].prev), ins, j + 1)
  {
    var key := ins[j].prev;
    InKeysStep(ins, j);
    if key !in w.pending {
      AlignedStep(utxo, w.spends, w.spent, key);
      SetOfStep(w.spends, key);
    }
  }

  function ViewOf(utxo: UtxoSet, w: Work): UtxoSet {
    (utxo - w.seen) + w.pending
  }

  lemma LookupIsView(utxo: UtxoSet, w0: Work, w: Work, ins: seq<TxIn>, j: nat)
    requires j < |ins| && Spending(utxo, w0, w, ins, j)
    ensures Lookup(utxo, w, ins[j].prev).Some? ==>
      && ins[j].prev !in InKeys(ins, j)
      && ins[j].prev in ViewOf(utxo, w0) && ViewOf(utxo, w0)[ins[j].prev] == Lookup(utxo, w, ins[j].prev).value
    ensures ins[j].prev !in w0.seen && ins[j].prev in ViewOf(utxo, w0) && ins[j].prev !in InKeys(ins, j)
      ==> Lookup(utxo, w, ins[j].prev).Some?
  {
  }

  /** One input: resolve, check maturity, verify, and add to the running total. */
  method SpendInput(rules: TxRules, utxo: UtxoSet, w: Work, tx: Tx, j: nat, height: int, totalIn: int64)
    returns (r: Result<Work, BlockError>, total: int64, ops: nat)
    requires j < |tx.ins| && InRange(utxo) && InRange(w.pending) && MoneyRange(totalIn)
    ensures var prev := Lookup(utxo, w, tx.ins[j].prev);
      && (r.Ok? <==>
            && prev.Some? && Mature(prev.value, height)
            && rules.spendSigOps(tx, j, prev.value.pkScript).Some?
            && totalIn as int + prev.value.value as int <= MAX_MONEY as int)
      && (r.Ok? ==>
            && r.value == Take(utxo, w, tx.ins[j].prev)
            && total as int == totalIn as int + prev.value.value as int && MoneyRange(total)
            && Some(ops) == rules.spendSigOps(tx, j, prev.value.pkScript))
  {
    total, ops := 0, 0;
    var key := tx.ins[j].prev;
    if key in w.seen {
      return Err(DuplicateSpend), 0, 0;
    }
    var fromSameBlock := key in w.pending;
    if !fromSameBlock && key !in utxo {
      return Err(MissingTxOut), 0, 0;
    }
    var prev := if fromSameBlock then w.pending[key] else utxo[key];
    if !Mature(prev, height) {
      return Err(ImmatureCoinbase), 0, 0;
    }
    var sigOps := rules.spendSigOps(tx, j, prev.pkScript);
    if sigOps.None? {
      return Err(ScriptFailed), 0, 0;
    }
    if !MoneyRange(totalIn + prev.value) {
      return Err(BadTxValue), 0, 0;
    }
    total, ops := totalIn + prev.value, sigOps.value;
    var seen := w.seen + {key};
    if fromSameBlock {
      r := Ok(w.(seen := seen, pending := w.pending - {key}));
    } else {
      r := Ok(w.(seen := seen, spends := w.spends + [key], spent := w.spent + [prev]));
    }
  }

  /** Spends the inputs of one transaction.  Accepting means exactly that every input is good on the
    batched view and none was spent earlier in the block. */
  method SpendInputs(rules: TxRules, utxo: UtxoSet, w0: Work, tx: Tx, height: int)
    returns (r: Result<Work, BlockError>, totalIn: int64, ops: nat)
    requires InRange(utxo) && InRange(w0.pending)
    requires Spending(utxo, w0, w0, tx.ins, 0)
    ensures r.Ok? ==>
      && InputsOk(rules, ViewOf(utxo, w0), tx, |tx.ins|, height)
      && Spending(utxo, w0, r.value, tx.ins, |tx.ins|)
      && totalIn as int == SumIn(ViewOf(utxo, w0), tx.ins, |tx.ins|) && MoneyRange(totalIn)
      && ops == InOps(rules, ViewOf(utxo, w0), tx, |tx.ins|)
    ensures r.Ok? <==> InKeys(tx.ins, |tx.ins|) !! w0.seen && InputsOk(rules, ViewOf(utxo, w0), tx, |tx.ins|, height)
  {
    hide *;
    ghost var view := ViewOf(utxo, w0);
    var w := w0;
    totalIn, ops := 0, 0;
    NoneTaken(rules, view, tx, height);
    for j := 0 to |tx.ins|
      invariant InputsOk(rules, view, tx, j, height)
      invariant Spending(utxo, w0, w, tx.ins, j)
      invariant totalIn as int == SumIn(view, tx.ins, j) && MoneyRange(totalIn)
      invariant ops == InOps(rules, view, tx, j)
    {
      SpendingInRange(utxo, w0, w, tx.ins, j);
      var step, total, more := SpendInput(rules, utxo, w, tx, j, height, totalIn);
      NextInput(rules, utxo, w0, w, tx, j, height, totalIn);
      if step.Err? {
        if InKeys(tx.ins, |tx.ins|) !! w0.seen && InputsOk(rules, view, tx, |tx.ins|, height) {
          InputKey(tx.ins, j);
          InputsOkPrefix(rules, view, tx, j + 1, |tx.ins|, height);
          assert false;
        }
        return step, 0, 0;
      }
      SpendingStep(utxo, w0, w, tx.ins, j);
      w, totalIn, ops := step.value, total, ops + more;
    }
    SpendingOnce(utxo, w0, w, tx.ins);
    r := Ok(w);
  }

  lemma InputKey(ins: seq<TxIn>, j: nat)
    requires j < |ins|
    ensures ins[j].prev in InKeys(ins, |ins|)
  {
  }

  lemma SpendingOnce(utxo: UtxoSet, w0: Work, w: Work, ins: seq<TxIn>)
    requires Spending(utxo, w0, w, ins, |ins|)
    ensures InKeys(ins, |ins|) !! w0.seen
  {
    hide InKeys, Aligned, SetOf;
  }

  lemma NoneTaken(rules: TxRules, view: UtxoSet, tx: Tx, height: int)
    ensures InputsOk(rules, view, tx, 0, height) && SumIn(view, tx.ins, 0) == 0 && InOps(rules, view, tx, 0) == 0
    ensures MoneyRange(0)
  {
  }

  lemma SpendingInRange(utxo: UtxoSet, w0: Work, w: Work, ins: seq<TxIn>, j: nat)
    requires j <= |ins| && Spending(utxo, w0, w, ins, j) && InRange(w0.pending)
    ensures InRange(w.pending)
  {
    hide Aligned, SetOf, InKeys;
  }

  /** What the batch checks of the next input is what the reference asks of it. */
  lemma NextInput(rules: TxRules, utxo: UtxoSet, w0: Work, w: Work, tx: Tx, j: nat, height: int, totalIn: int64)
    requires j < |tx.ins| && Spending(utxo, w0, w, tx.ins, j)
    requires InRange(utxo) && InRange(w0.pending)
    requires InputsOk(rules, ViewOf(utxo, w0), tx, j, height) && MoneyRange(totalIn)
    requires totalIn as int == SumIn(ViewOf(utxo, w0), tx.ins, j)
    ensures var view, prev := ViewOf(utxo, w0), Lookup(utxo, w, tx.ins[j].prev);
      var good := prev.Some? && Mature(prev.value, height) && rules.spendSigOps(tx, j, prev.value.pkScript).Some?
        && totalIn as int + prev.value.value as int <= MAX_MONEY as int;
      && (good ==>
            && InputsOk(rules, view, tx, j + 1, height)
            && SumIn(view, tx.ins, j + 1) == totalIn as int + prev.value.value as int
            && InOps(rules, view, tx, j + 1)
               == InOps(rules, view, tx, j) + rules.spendSigOps(tx, j, prev.value.pkScript).value)
      && (tx.ins[j].prev !in w0.seen && InputsOk(rules, view, tx, j + 1, height) ==> good)
  {
    LookupIsView(utxo, w0, w, tx.ins, j);
    LookupInRange(utxo, w0, w, tx.ins, j);
    hide Spending, ViewOf, Lookup, InRange, InKeys, Mature;
  }

  lemma LookupInRange(utxo: UtxoSet, w0: Work, w: Work, ins: seq<TxIn>, j: nat)
    requires j < |ins| && Spending(utxo, w0, w, ins, j) && InRange(utxo) && InRange(w0.pending)
    ensures var prev := Lookup(utxo, w, ins[j].prev);
      prev.Some? ==> prev.value.value >= 0
  {
    hide Aligned, SetOf, InKeys;
  }

  function OutKeySeq(tx: Tx, n: nat): seq<OutPoint> {
    seq(n, i requires 0 <= i < n => OutPoint(HashOf(tx), i))
  }

  /** The first n outputs of a transaction, as a map. */
  function CreatedFirst(tx: Tx, n: nat, height: int, coinbase: bool): UtxoSet {
    map k | k in OutKeys(tx) && k.index < n :: OutEntry(tx, k.index, height, coinbase)
  }

  lemma CreatedFirstStep(tx: Tx, n: nat, height: int, coinbase: bool)
    requires n < |tx.outs|
    ensures var e := OutEntry(tx, n, height, coinbase);
      CreatedFirst(tx, n + 1, height, coinbase) == CreatedFirst(tx, n, height, coinbase)[e.key := e]
  {
    assert OutPoint(HashOf(tx), n) in OutKeys(tx);
  }

  /** Files the outputs of one transaction as pending, in order. */
  method AddOutputs(w: Work, tx: Tx, es: seq<Entry>, height: int, coinbase: bool) returns (r: Result<Work, BlockError>)
    requires |es| == |tx.outs|
    requires forall i :: 0 <= i < |es| ==> es[i] == OutEntry(tx, i, height, coinbase)
    ensures OutKeys(tx) !! w.pending.Keys ==> r.Ok?
    ensures r.Ok? ==>
      r.value == w.(pending := w.pending + Created(tx, height, coinbase), order := w.order + OutKeySeq(tx, |tx.outs|))
  {
    var pending, order := w.pending, w.order;
    for i := 0 to |es|
      invariant pending == w.pending + CreatedFirst(tx, i, height, coinbase)
      invariant order == w.order + OutKeySeq(tx, i)
    {
      var key := es[i].key;
      assert key == OutPoint(HashOf(tx), i);
      if key in pending {
        assert key !in CreatedFirst(tx, i, height, coinbase);
        assert key in OutKeys(tx);
        return Err(DuplicateTxID);
      }
      AddOutputsStep(w, tx, i, height, coinbase);
      pending, order := pending[key := es[i]], order + [key];
    }
    assert CreatedFirst(tx, |es|, height, coinbase) == Created(tx, height, coinbase);
    r := Ok(w.(pending := pending, order := order));
  }

  lemma CreatedOnto(m: UtxoSet, tx: Tx, n: nat, height: int, coinbase: bool)
    requires n < |tx.outs|
    ensures var e := OutEntry(tx, n, height, coinbase);
      m + CreatedFirst(tx, n + 1, height, coinbase) == (m + CreatedFirst(tx, n, height, coinbase))[e.key := e]
  {
    CreatedFirstStep(tx, n, height, coinbase);
  }

  lemma AddOutputsStep(w: Work, tx: Tx, n: nat, height: int, coinbase: bool)
    requires n < |tx.outs|
    ensures var e := OutEntry(tx, n, height, coinbase);
      w.pending + CreatedFirst(tx, n + 1, height, coinbase) == (w.pending + CreatedFirst(tx, n, height, coinbase))[e.key := e]
    ensures w.order + OutKeySeq(tx, n + 1) == (w.order + OutKeySeq(tx, n)) + [OutPoint(HashOf(tx), n)]
  {
    CreatedOnto(w.pending, tx, n, height, coinbase);
  }

  /** `w'` is `w` after one transaction: its inputs taken, its outputs filed. */
  ghost predicate Ran(utxo: UtxoSet, w: Work, w': Work, tx: Tx, coinbase: bool, height: int) {
    && Spent(tx, coinbase) !! w.seen
    && w'.pending == ApplyTx(w.pending, tx, height, coinbase)
    && w'.seen == w.seen + Spent(tx, coinbase)
    && SetOf(w'.spends) == SetOf(w.spends) + (Spent(tx, coinbase) - w.pending.Keys)
    && Aligned(utxo, w'.spends, w'.spent)
    && w'.order == w.order + OutKeySeq(tx, |tx.outs|)
  }

  lemma SpendingNone(utxo: UtxoSet, w: Work, ins: seq<TxIn>)
    requires Aligned(utxo, w.spends, w.spent) && SetOf(w.spends) <= w.seen
    ensures Spending(utxo, w, w, ins, 0)
  {
    assert InKeys(ins, 0) == {} && w.pending - {} == w.pending;
  }

  /** What one transaction must satisfy on the batched view, running totals included. */
  ghost predicate Accepts(rules: TxRules, view: UtxoSet, w: Work, tx: Tx, coinbase: bool, height: int, time: uint32) {
    && TxOk(rules, view, tx, coinbase, height, time)
    && w.sigOps + TxOps(rules, view, tx, coinbase) <= MAX_BLOCK_SIG_OPS
    && w.fees as int + (if coinbase then 0 else TxFee(view, tx)) <= MAX_MONEY as int
  }

  /** The body of the validation loop. */
  method RunTx(rules: TxRules, utxo: UtxoSet, w: Work, tx: Tx, seenTxIds: set<TxId>, coinbase: bool, height: int, time: uint32)
    returns (r: Result<Work, BlockError>, totalOut: int64)
    requires InRange(utxo) && InRange(w.pending) && MoneyRange(w.fees)
    requires Aligned(utxo, w.spends, w.spent) && SetOf(w.spends) <= w.seen
    ensures var view := ViewOf(utxo, w);
      && (r.Ok? ==>
            && HashOf(tx) !in seenTxIds
            && Accepts(rules, view, w, tx, coinbase, height, time)
            && Ran(utxo, w, r.value, tx, coinbase, height)
            && r.value.sigOps == w.sigOps + TxOps(rules, view, tx, coinbase)
            && r.value.fees as int == w.fees as int + (if coinbase then 0 else TxFee(view, tx))
            && MoneyRange(r.value.fees)
            && totalOut as int == SumOut(tx.outs, |tx.outs|) && MoneyRange(totalOut))
      && ((Spent(tx, coinbase) !! w.seen && OutKeys(tx) !! w.pending.Keys && HashOf(tx) !in seenTxIds
           && Accepts(rules, view, w, tx, coinbase, height, time)) ==> r.Ok?)
  {
    hide *;
    AcceptsParts(rules, ViewOf(utxo, w), w, tx, coinbase, height, time);
    SpentIs(tx);
    if !coinbase && IsCoinbase(tx) {
      return Err(BadCoinbase), 0;
    }
    if !coinbase && |tx.ins| == 0 {
      return Err(NoInputs), 0;
    }
    if !IsFinalizedTx(tx, height, time) {
      return Err(NonFinalTx), 0;
    }
    if HashOf(tx) in seenTxIds {
      return Err(DuplicateTxID), 0;
    }
    var ok, es, total, ops := CreateOutputs(rules, tx, height, coinbase);
    if !ok {
      return Err(BadTxValue), 0;
    }
    totalOut := total;
    OutputsInRange(tx.outs, totalOut);
    if coinbase {
      if ops > MAX_TX_SIG_OPS || w.sigOps + ops > MAX_BLOCK_SIG_OPS {
        return Err(TooManySigOps), 0;
      }
      RanCoinbase(utxo, w, tx, height, w.sigOps + ops);
      r := AddOutputs(w.(sigOps := w.sigOps + ops), tx, es, height, coinbase);
    } else {
      r := RunSpend(rules, utxo, w, tx, es, ops, totalOut, height);
    }
  }

  lemma SpentIs(tx: Tx)
    ensures Spent(tx, false) == InKeys(tx.ins, |tx.ins|)
  {
    hide InKeys;
  }

  lemma AcceptsParts(rules: TxRules, view: UtxoSet, w: Work, tx: Tx, coinbase: bool, height: int, time: uint32)
    ensures Accepts(rules, view, w, tx, coinbase, height, time) <==>
      && IsFinalizedTx(tx, height, time) && OutputsOk(tx.outs, |tx.outs|)
      && (if coinbase
          then var ops := OutOps(rules, tx.outs, |tx.outs|);
            ops <= MAX_TX_SIG_OPS && w.sigOps + ops <= MAX_BLOCK_SIG_OPS && w.fees <= MAX_MONEY
          else
            && !IsCoinbase(tx) && |tx.ins| > 0
            && SpendOk(rules, view, w, tx, OutOps(rules, tx.outs, |tx.outs|), height))
    ensures TxOps(rules, view, tx, coinbase)
         == OutOps(rules, tx.outs, |tx.outs|) + if coinbase then 0 else InOps(rules, view, tx, |tx.ins|)
  {
    hide IsFinalizedTx, OutputsOk, InputsOk, OutOps, InOps, SumIn, SumOut, IsCoinbase;
  }

  lemma OutputsInRange(outs: seq<TxOut>, total: int64)
    requires OutputsOk(outs, |outs|) && total as int == SumOut(outs, |outs|)
    ensures MoneyRange(total)
  {
    OutputsOkRange(outs, |outs|);
  }

  lemma RanCoinbase(utxo: UtxoSet, w: Work, tx: Tx, height: int, sigOps: nat)
    requires MoneyRange(w.fees) && Aligned(utxo, w.spends, w.spent)
    ensures Ran(utxo, w, Work(w.pending + Created(tx, height, true), w.order + OutKeySeq(tx, |tx.outs|), w.spends, w.spent,
                              w.seen, w.fees, sigOps), tx, true, height)
    ensures w.fees <= MAX_MONEY
  {
    hide Aligned, Created, OutKeySeq, SetOf;
    assert w.pending - {} == w.pending;
  }

  /** What the inputs of a transaction must satisfy, its outputs having been checked. */
  ghost predicate SpendOk(rules: TxRules, view: UtxoSet, w: Work, tx: Tx, outOps: nat, height: int) {
    var ops := outOps + InOps(rules, view, tx, |tx.ins|);
    && InputsOk(rules, view, tx, |tx.ins|, height)
    && TxFee(view, tx) >= 0
    && ops <= MAX_TX_SIG_OPS && w.sigOps + ops <= MAX_BLOCK_SIG_OPS
    && w.fees as int + TxFee(view, tx) <= MAX_MONEY as int
  }

  /** Spends the inputs, settles the fee and files the outputs. */
  method RunSpend(rules: TxRules, utxo: UtxoSet, w: Work, tx: Tx, es: seq<Entry>, outOps: nat, totalOut: int64, height: int)
    returns (r: Result<Work, BlockError>)
    requires InRange(utxo) && InRange(w.pending) && MoneyRange(w.fees)
    requires Aligned(utxo, w.spends, w.spent) && SetOf(w.spends) <= w.seen
    requires |es| == |tx.outs| && forall i :: 0 <= i < |es| ==> es[i] == OutEntry(tx, i, height, false)
    requires totalOut as int == SumOut(tx.outs, |tx.outs|) && MoneyRange(totalOut)
    ensures var view := ViewOf(utxo, w);
      && (r.Ok? ==>
            && SpendOk(rules, view, w, tx, outOps, height) && Ran(utxo, w, r.value, tx, false, height)
            && r.value.sigOps == w.sigOps + outOps + InOps(rules, view, tx, |tx.ins|)
            && r.value.fees as int == w.fees as int + TxFee(view, tx) && MoneyRange(r.value.fees))
      && (InKeys(tx.ins, |tx.ins|) !! w.seen && OutKeys(tx) !! w.pending.Keys && SpendOk(rules, view, w, tx, outOps, height) ==> r.Ok?)
  {
    hide *;
    SpendingNone(utxo, w, tx.ins);
    var spending, totalIn, inOps := SpendInputs(rules, utxo, w, tx, height);
    SpendOkParts(rules, ViewOf(utxo, w), w, tx, outOps, height, totalOut);
    if spending.Err? {
      return spending;
    }
    var ops := outOps + inOps;
    if ops > MAX_TX_SIG_OPS || w.sigOps + ops > MAX_BLOCK_SIG_OPS {
      return Err(TooManySigOps);
    }
    if totalIn < totalOut {
      return Err(BadTxValue);
    }
    FeeFits(w.fees, totalIn, totalOut);
    var fees := w.fees + (totalIn - totalOut);
    if !MoneyRange(fees) {
      return Err(BadTxValue);
    }
    RanSpend(utxo, w, spending.value, tx, height, fees, w.sigOps + ops);
    r := AddOutputs(spending.value.(sigOps := w.sigOps + ops, fees := fees), tx, es, height, false);
  }

  lemma SpendOkParts(rules: TxRules, view: UtxoSet, w: Work, tx: Tx, outOps: nat, height: int, totalOut: int64)
    requires totalOut as int == SumOut(tx.outs, |tx.outs|) && MoneyRange(w.fees)
    ensures var ops, fee := outOps + InOps(rules, view, tx, |tx.ins|), SumIn(view, tx.ins, |tx.ins|) - totalOut as int;
      && TxFee(view, tx) == fee
      && (SpendOk(rules, view, w, tx, outOps, height) <==>
            && InputsOk(rules, view, tx, |tx.ins|, height) && fee >= 0
            && ops <= MAX_TX_SIG_OPS && w.sigOps + ops <= MAX_BLOCK_SIG_OPS
            && w.fees as int + fee <= MAX_MONEY as int)
    ensures forall v: int64 :: MoneyRange(v) <==> 0 <= v <= MAX_MONEY
  {
    hide InputsOk, InOps, SumIn, SumOut;
  }

  lemma FeeFits(fees: int64, totalIn: int64, totalOut: int64)
    requires MoneyRange(fees) && MoneyRange(totalIn) && MoneyRange(totalOut) && totalIn >= totalOut
    ensures 0 <= totalIn - totalOut && fees as int + (totalIn - totalOut) as int < 0x8000_0000_0000_0000
    ensures fees >= 0
  {
  }

  lemma RanSpend(utxo: UtxoSet, w: Work, w': Work, tx: Tx, height: int, fees: int64, sigOps: nat)
    requires Spending(utxo, w, w', tx.ins, |tx.ins|)
    ensures Ran(utxo, w, Work(w'.pending + Created(tx, height, false), w'.order + OutKeySeq(tx, |tx.outs|), w'.spends, w'.spent,
                              w'.seen, fees, sigOps), tx, false, height)
    ensures w'.pending.Keys <= w.pending.Keys
  {
    hide Aligned, Created, OutKeySeq, SetOf, InKeys;
  }


  function IdsOf(txs: seq<Tx>, n: nat): set<TxId>
    requires n <= |txs|
  {
    set i | 0 <= i < n :: HashOf(txs[i])
  }

  /** The loop invariant: the work variables are the batch functions of the first n transactions. */
  ghost predicate Working(rules: TxRules, utxo: UtxoSet, txs: seq<Tx>, n: nat, height: int, w: Work)
    requires n <= |txs|
  {
    && w.pending == Pending(txs, n, height)
    && w.seen == Seen(txs, n)
    && Consumed(txs, n, height) <= w.seen
    && SetOf(w.spends) == w.seen - Consumed(txs, n, height)
    && Aligned(utxo, w.spends, w.spent)
    && w.fees as int == Fees(utxo, txs, n, height) && MoneyRange(w.fees)
    && w.sigOps == BlockOps(rules, utxo, txs, n, height)
  }

  /** Keys made so far belong to transactions run so far, and a consumed one never comes back. */
  ghost predicate Filed(consumed: set<OutPoint>, pending: set<OutPoint>, order: seq<OutPoint>, ids: set<TxId>) {
    && consumed !! pending
    && (forall k :: k in consumed || k in pending ==> k.hash in ids)
    && Distinct(order)
    && pending <= SetOf(order)
    && (forall i :: 0 <= i < |order| ==> order[i].hash in ids)
  }

  lemma ConsumedStep(seen: set<OutPoint>, consumed: set<OutPoint>, spent: set<OutPoint>, pending: set<OutPoint>)
    requires consumed <= seen && spent !! seen
    ensures (seen + spent) - (consumed + spent * pending) == (seen - consumed) + (spent - pending)
  {
  }

  lemma WorkingStep(rules: TxRules, utxo: UtxoSet, txs: seq<Tx>, n: nat, height: int, w: Work, w': Work)
    requires n < |txs| && Working(rules, utxo, txs, n, height, w)
    requires Ran(utxo, w, w', txs[n], n == 0, height)
    requires w'.sigOps == w.sigOps + TxOps(rules, ViewOf(utxo, w), txs[n], n == 0)
    requires w'.fees as int == w.fees as int + (if n == 0 then 0 else TxFee(ViewOf(utxo, w), txs[n]))
    requires MoneyRange(w'.fees)
    ensures Working(rules, utxo, txs, n + 1, height, w')
  {
    ViewIsSequential(utxo, txs, n, height);
    ConsumedStep(w.seen, Consumed(txs, n, height), Spent(txs[n], n == 0), w.pending.Keys);
  }

  lemma FiledStep(consumed: set<OutPoint>, pending: set<OutPoint>, order: seq<OutPoint>, ids: set<TxId>, spent: set<OutPoint>, tx: Tx)
    requires Filed(consumed, pending, order, ids) && HashOf(tx) !in ids
    ensures Filed(consumed + spent * pending, (pending - spent) + OutKeys(tx),
                  order + OutKeySeq(tx, |tx.outs|), ids + {HashOf(tx)})
  {
    assert forall k :: k in OutKeys(tx) ==> k.hash == HashOf(tx);
    var made := OutKeySeq(tx, |tx.outs|);
    var longer := order + made;
    forall k | k in pending + OutKeys(tx)
      ensures k in SetOf(longer)
    {
      if k in OutKeys(tx) {
        assert longer[|order| + k.index] == made[k.index] == k;
      } else {
        var i :| 0 <= i < |order| && order[i] == k;
        assert longer[i] == k;
      }
    }
  }

  /** Without a BIP 30 clash no pending output has been spent under its key before. */
  lemma NoClash(rules: TxRules, utxo: UtxoSet, txs: seq<Tx>, n: nat, height: int, w: Work)
    requires n < |txs| && Working(rules, utxo, txs, n, height, w)
    requires Filed(Consumed(txs, n, height), w.pending.Keys, w.order, IdsOf(txs, n))
    requires Fresh(utxo, txs)
    ensures w.pending.Keys !! w.seen
    ensures HashOf(txs[n]) !in IdsOf(txs, n) ==> OutKeys(txs[n]) !! w.pending.Keys
  {
    PendingKeys(txs, n, height);
    forall k | k in w.pending
      ensures k !in w.seen
    {
      assert k in SetOf(w.spends) ==> k in utxo;
    }
  }

  lemma IdsAreTxs(txs: seq<Tx>, n: nat)
    requires n < |txs|
    ensures HashOf(txs[n]) in IdsOf(txs, n) <==> txs[n] in txs[..n]
  {
    if HashOf(txs[n]) in IdsOf(txs, n) {
      var i :| 0 <= i < n && HashOf(txs[i]) == HashOf(txs[n]);
      assert txs[..n][i] == txs[n];
    }
    if txs[n] in txs[..n] {
      var i :| 0 <= i < n && txs[..n][i] == txs[n];
      assert HashOf(txs[i]) in IdsOf(txs, n);
    }
  }

  /** The pending entries in creation order. */
  method CollectAdds(order: seq<OutPoint>, pending: UtxoSet) returns (adds: seq<Entry>)
    requires InRange(pending) && Distinct(order) && pending.Keys <= SetOf(order)
    ensures Lists(adds, pending)
  {
    adds := [];
    for i := 0 to |order|
      invariant forall j :: 0 <= j < |adds| ==> adds[j].key in pending && pending[adds[j].key] == adds[j]
      invariant KeysOf(adds) == pending.Keys * SetOf(order[..i])
      invariant forall j, k :: 0 <= j < k < |adds| ==> adds[j].key != adds[k].key
    {
      assert order[..i + 1] == order[..i] + [order[i]];
      SetOfStep(order[..i], order[i]);
      if order[i] in pending {
        forall j | 0 <= j < |adds|
          ensures adds[j].key != order[i]
        {
          assert adds[j].key in KeysOf(adds);
        }
        KeysOfStep(adds, pending[order[i]]);
        adds := adds + [pending[order[i]]];
      }
    }
    assert order[..|order|] == order;
  }

  lemma KeysOfStep(es: seq<Entry>, e: Entry)
    ensures KeysOf(es + [e]) == KeysOf(es) + {e.key}
  {
    var all := es + [e];
    forall k | k in KeysOf(es) + {e.key}
      ensures k in KeysOf(all)
    {
      if k in KeysOf(es) {
        var i :| 0 <= i < |es| && es[i].key == k;
        assert all[i].key == k;
      } else {
        assert all[|es|].key == k;
      }
    }
  }

  lemma AlignedLists(utxo: UtxoSet, spends: seq<OutPoint>, spent: seq<Entry>)
    requires InRange(utxo) && Aligned(utxo, spends, spent)
    ensures SetOf(spends) <= utxo.Keys
    ensures forall i :: 0 <= i < |spends| ==> spends[i] == spent[i].key
    ensures Lists(spent, Restrict(utxo, SetOf(spends)))
  {
    assert forall i :: 0 <= i < |spends| ==> spends[i] in SetOf(spends) && spent[i].key == spends[i];
  }

  lemma PendingInRange(rules: TxRules, utxo: UtxoSet, txs: seq<Tx>, n: nat, height: int, time: uint32)
    requires n <= |txs| && TxsOk(rules, utxo, txs, n, height, time)
    ensures InRange(Pending(txs, n, height))
  {
    if n > 0 {
      PendingInRange(rules, utxo, txs, n - 1, height, time);
      var tx := txs[n - 1];
      OutputsOkRange(tx.outs, |tx.outs|);
      var after := Pending(txs, n, height);
      forall k | k in after
        ensures MoneyRange(after[k].value) && after[k].key == k
      {
        if k in OutKeys(tx) {
          assert Created(tx, height, n == 1)[k] == OutEntry(tx, k.index, height, n == 1);
        }
      }
    }
  }

  /** No outpoint is spent by two of the first n transactions. */
  ghost predicate OnceSpent(txs: seq<Tx>, n: nat)
    requires n <= |txs|
  {
    forall i :: 0 <= i < n ==> Spent(txs[i], i == 0) !! Seen(txs, i)
  }

  lemma OnceSpentStep(txs: seq<Tx>, n: nat)
    requires n < |txs| && OnceSpent(txs, n) && Spent(txs[n], n == 0) !! Seen(txs, n)
    ensures OnceSpent(txs, n + 1)
  {
    hide Seen, Spent;
  }

  /** Everything the loop keeps. */
  ghost predicate Loop(rules: TxRules, utxo: UtxoSet, txs: seq<Tx>, n: nat, height: int, time: uint32, w: Work)
    requires n <= |txs|
  {
    && TxsOk(rules, utxo, txs, n, height, time)
    && Working(rules, utxo, txs, n, height, w)
    && Filed(Consumed(txs, n, height), w.pending.Keys, w.order, IdsOf(txs, n))
    && OnceSpent(txs, n)
  }

  lemma LoopFacts(rules: TxRules, utxo: UtxoSet, txs: seq<Tx>, n: nat, height: int, time: uint32, w: Work)
    requires n <= |txs| && Loop(rules, utxo, txs, n, height, time, w)
    ensures InRange(w.pending) && MoneyRange(w.fees)
    ensures Aligned(utxo, w.spends, w.spent) && SetOf(w.spends) <= w.seen
    ensures ViewOf(utxo, w) == ApplyTxs(utxo, txs, n, height)
  {
    PendingInRange(rules, utxo, txs, n, height, time);
    ViewIsSequential(utxo, txs, n, height);
  }

  lemma IdsOfStep(txs: seq<Tx>, n: nat)
    requires n < |txs|
    ensures IdsOf(txs, n + 1) == IdsOf(txs, n) + {HashOf(txs[n])}
  {
  }

  lemma LoopStep(rules: TxRules, utxo: UtxoSet, txs: seq<Tx>, n: nat, height: int, time: uint32, w: Work, w': Work)
    requires n < |txs| && Loop(rules, utxo, txs, n, height, time, w)
    requires HashOf(txs[n]) !in IdsOf(txs, n) && Accepts(rules, ViewOf(utxo, w), w, txs[n], n == 0, height, time)
    requires Ran(utxo, w, w', txs[n], n == 0, height)
    requires w'.sigOps == w.sigOps + TxOps(rules, ViewOf(utxo, w), txs[n], n == 0)
    requires w'.fees as int == w.fees as int + (if n == 0 then 0 else TxFee(ViewOf(utxo, w), txs[n]))
    requires MoneyRange(w'.fees)
    ensures Loop(rules, utxo, txs, n + 1, height, time, w')
  {
    var spent, ids := Spent(txs[n], n == 0), IdsOf(txs, n);
    TxsOkStep(rules, utxo, txs, n, height, time, w);
    WorkingStep(rules, utxo, txs, n, height, w, w');
    FiledStep(Consumed(txs, n, height), w.pending.Keys, w.order, ids, spent, txs[n]);
    IdsOfStep(txs, n);
    ConsumedNext(txs, n, height);
    ApplyTxKeys(w.pending, txs[n], height, n == 0);
    SeenIs(rules, utxo, txs, n, height, w);
    OnceSpentStep(txs, n);
    hide OnceSpent, TxsOk, Working, Filed, Consumed, Pending, ApplyTx, TxOk, Spent, IdsOf;
  }

  lemma SeenIs(rules: TxRules, utxo: UtxoSet, txs: seq<Tx>, n: nat, height: int, w: Work)
    requires n <= |txs| && Working(rules, utxo, txs, n, height, w)
    ensures w.seen == Seen(txs, n)
  {
    hide Seen, Consumed, Pending, Aligned, SetOf, Fees, BlockOps;
  }

  lemma ConsumedNext(txs: seq<Tx>, n: nat, height: int)
    requires n < |txs|
    ensures Consumed(txs, n + 1, height)
         == Consumed(txs, n, height) + Spent(txs[n], n == 0) * Pending(txs, n, height).Keys
  {
  }

  lemma ApplyTxKeys(utxo: UtxoSet, tx: Tx, height: int, coinbase: bool)
    ensures ApplyTx(utxo, tx, height, coinbase).Keys == (utxo.Keys - Spent(tx, coinbase)) + OutKeys(tx)
  {
  }

  lemma TxsOkStep(rules: TxRules, utxo: UtxoSet, txs: seq<Tx>, n: nat, height: int, time: uint32, w: Work)
    requires n < |txs| && TxsOk(rules, utxo, txs, n, height, time) && Working(rules, utxo, txs, n, height, w)
    ensures TxsOk(rules, utxo, txs, n + 1, height, time)
       <==> HashOf(txs[n]) !in IdsOf(txs, n) && Accepts(rules, ViewOf(utxo, w), w, txs[n], n == 0, height, time)
  {
    ViewIsSequential(utxo, txs, n, height);
    IdsAreTxs(txs, n);
    hide TxOk, InputsOk, OutputsOk, ApplyTxs, Pending, Consumed, Seen, Aligned;
  }

  /** The validation loop over a block's transactions. */
  method RunTxs(rules: TxRules, utxo: UtxoSet, txs: seq<Tx>, height: int, time: uint32)
    returns (r: Result<Work, BlockError>, coinbaseOut: int64)
    requires InRange(utxo) && |txs| > 0
    ensures r.Ok? ==>
      && Loop(rules, utxo, txs, |txs|, height, time, r.value)
      && coinbaseOut as int == SumOut(txs[0].outs, |txs[0].outs|) && MoneyRange(coinbaseOut)
    ensures r.Ok? ==> OnceSpent(txs, |txs|)
    ensures (Fresh(utxo, txs) || OnceSpent(txs, |txs|)) && TxsOk(rules, utxo, txs, |txs|, height, time) ==> r.Ok?
  {
    var w := Work(map[], [], [], [], {}, 0, 0);
    var seenTxIds: set<TxId> := {};
    coinbaseOut := 0;
    assert Loop(rules, utxo, txs, 0, height, time, w);
    assert seenTxIds == IdsOf(txs, 0);
    hide *;
    for i := 0 to |txs|
      invariant Loop(rules, utxo, txs, i, height, time, w)
      invariant seenTxIds == IdsOf(txs, i)
      invariant i > 0 ==> coinbaseOut as int == SumOut(txs[0].outs, |txs[0].outs|) && MoneyRange(coinbaseOut)
    {
      LoopFacts(rules, utxo, txs, i, height, time, w);
      IdsOfStep(txs, i);
      var step, totalOut := RunTx(rules, utxo, w, txs[i], seenTxIds, i == 0, height, time);
      if step.Err? {
        if (Fresh(utxo, txs) || OnceSpent(txs, |txs|)) && TxsOk(rules, utxo, txs, |txs|, height, time) {
          AcceptedTx(rules, utxo, txs, i, height, time, w);
        }
        return step, 0;
      }
      LoopStep(rules, utxo, txs, i, height, time, w, step.value);
      if i == 0 {
        coinbaseOut := totalOut;
      }
      w := step.value;
      seenTxIds := seenTxIds + {HashOf(txs[i])};
    }
    LoopOnce(rules, utxo, txs, height, time, w);
    r := Ok(w);
  }

  lemma LoopOnce(rules: TxRules, utxo: UtxoSet, txs: seq<Tx>, height: int, time: uint32, w: Work)
    requires Loop(rules, utxo, txs, |txs|, height, time, w)
    ensures OnceSpent(txs, |txs|)
  {
    hide OnceSpent, TxsOk, Working, Filed;
  }

  /** In an acceptable block that spends nothing twice, the batch has no ground to refuse; and
    without a BIP 30 clash an acceptable block spends nothing twice. */
  lemma AcceptedTx(rules: TxRules, utxo: UtxoSet, txs: seq<Tx>, i: nat, height: int, time: uint32, w: Work)
    requires i < |txs| && Loop(rules, utxo, txs, i, height, time, w)
    requires Fresh(utxo, txs) || OnceSpent(txs, |txs|)
    requires TxsOk(rules, utxo, txs, |txs|, height, time)
    ensures Spent(txs[i], i == 0) !! w.seen && OutKeys(txs[i]) !! w.pending.Keys && HashOf(txs[i]) !in IdsOf(txs, i)
    ensures Accepts(rules, ViewOf(utxo, w), w, txs[i], i == 0, height, time)
  {
    hide *;
    LoopParts(rules, utxo, txs, i, height, time, w);
    TxsOkPrefix(rules, utxo, txs, i + 1, |txs|, height, time);
    TxsOkStep(rules, utxo, txs, i, height, time, w);
    NewOutputs(utxo, txs, i, height, w);
    if OnceSpent(txs, |txs|) {
      SpentAt(txs, i);
    } else {
      NoClash(rules, utxo, txs, i, height, w);
      SpentInView(rules, utxo, w, txs[i], i == 0, height, time);
    }
  }

  lemma LoopParts(rules: TxRules, utxo: UtxoSet, txs: seq<Tx>, n: nat, height: int, time: uint32, w: Work)
    requires n <= |txs| && Loop(rules, utxo, txs, n, height, time, w)
    ensures TxsOk(rules, utxo, txs, n, height, time) && Working(rules, utxo, txs, n, height, w)
    ensures Filed(Consumed(txs, n, height), w.pending.Keys, w.order, IdsOf(txs, n)) && w.seen == Seen(txs, n)
  {
    SeenIs(rules, utxo, txs, n, height, w);
    hide OnceSpent, TxsOk, Working, Filed;
  }

  lemma NewOutputs(utxo: UtxoSet, txs: seq<Tx>, n: nat, height: int, w: Work)
    requires n < |txs| && Filed(Consumed(txs, n, height), w.pending.Keys, w.order, IdsOf(txs, n))
    ensures HashOf(txs[n]) !in IdsOf(txs, n) ==> OutKeys(txs[n]) !! w.pending.Keys
  {
    hide Consumed, IdsOf;
  }

  lemma SpentAt(txs: seq<Tx>, i: nat)
    requires i < |txs| && OnceSpent(txs, |txs|)
    ensures Spent(txs[i], i == 0) !! Seen(txs, i)
  {
    hide Spent, Seen;
  }

  lemma SpentInView(rules: TxRules, utxo: UtxoSet, w: Work, tx: Tx, coinbase: bool, height: int, time: uint32)
    requires w.pending.Keys !! w.seen && Accepts(rules, ViewOf(utxo, w), w, tx, coinbase, height, time)
    ensures Spent(tx, coinbase) !! w.seen
  {
    hide TxFee, TxOps, OutputsOk, IsFinalizedTx, InputsOk;
    if !coinbase {
      InputsOkFacts(rules, ViewOf(utxo, w), tx, |tx.ins|, height);
    }
  }

  /** Validates a block against the store's unspent set.  It accepts exactly what the one-at-a-time
    validator accepts and that spends no outpoint twice, with an exact difference; without a BIP 30
    clash the two accept the same blocks. */
  method ValidateBlockTransactions(rules: TxRules, utxo: UtxoSet, block: Block, height: int)
    returns (r: Result<Diff, BlockError>)
    requires InRange(utxo)
    ensures r.Ok? ==> BlockTxsOk(rules, utxo, block, height) && Exact(utxo, block.txs, height, r.value)
    ensures r.Ok? ==> Consumed(block.txs, |block.txs|, height) !! Pending(block.txs, |block.txs|, height).Keys
    ensures r.Ok? <==> BlockTxsOk(rules, utxo, block, height) && OnceSpent(block.txs, |block.txs|)
    ensures Fresh(utxo, block.txs) && BlockTxsOk(rules, utxo, block, height) ==> r.Ok?
  {
    var txs, time := block.txs, block.header.time;
    if |txs| == 0 {
      return Err(NoTransactions);
    }
    if !IsCoinbase(txs[0]) {
      return Err(BadCoinbase);
    }
    if rules.blockSize(block) > MAX_BLOCK_SIZE {
      return Err(BadBlockSize);
    }
    var sigLen := |txs[0].ins[0].sigScript|;
    if sigLen < MIN_COINBASE_SCRIPT || sigLen > MAX_COINBASE_SCRIPT {
      return Err(BadCoinbase);
    }
    var run, coinbaseOut := RunTxs(rules, utxo, txs, height, time);
    if run.Err? {
      return Err(run.error);
    }
    var w := run.value;
    var maxCoinbase := BlockSubsidy(height) + w.fees;
    if coinbaseOut > maxCoinbase || !MoneyRange(coinbaseOut) {
      return Err(BadCoinbaseValue);
    }
    PendingInRange(rules, utxo, txs, |txs|, height, time);
    var adds := CollectAdds(w.order, w.pending);
    AlignedLists(utxo, w.spends, w.spent);
    r := Ok(Diff(adds, w.spends, w.spent));
  }
}
