/** Block templates: what the builder selects from the pool, and why the chain accepts it. */
module Mining {
  import opened Wire
  import opened ChainCfg
  import opened Ledger
  import opened Batch
  import opened Supply
  import opened Unique
  import opened PoolDag
  import opened Mempool
  import opened TxPool
  import opened Consensus
  import opened ChainPath
  import opened HeaderBatch
  import opened Storage
  import opened Active
  import opened Blockchain

  // ----- The coinbase -----

  /** Four bytes of the height, lowest first. */
  function HeightBytes(height: uint32): Script {
    [(height % 256) as byte, (height / 0x100 % 256) as byte, (height / 0x1_0000 % 256) as byte, (height / 0x100_0000) as byte]
  }

  /** "/Legacy-GO/" */
  const TAG: Script := [0x2f, 0x4c, 0x65, 0x67, 0x61, 0x63, 0x79, 0x2d, 0x47, 0x4f, 0x2f]

  function PayToPubKeyHash(hash: Script): Script {
    [0x76, 0xa9, 0x14] + hash + [0x88, 0xac]
  }

  function CoinbaseTx(height: uint32, hash: Script, value: int64): Tx {
    Tx(1, [TxIn(OutPoint(ZeroTxId, MAX_UINT32), [4] + HeightBytes(height) + TAG, MAX_UINT32)],
       [TxOut(value, PayToPubKeyHash(hash))], 0)
  }

  /** Templates for different heights never share a coinbase, whatever they pay. */
  lemma CoinbasesDifferByHeight(a: uint32, b: uint32, hashA: Script, hashB: Script, valueA: int64, valueB: int64)
    requires CoinbaseTx(a, hashA, valueA) == CoinbaseTx(b, hashB, valueB)
    ensures a == b && hashA == hashB && valueA == valueB
  {
    var s, t := [4] + HeightBytes(a) + TAG, [4] + HeightBytes(b) + TAG;
    assert s == CoinbaseTx(a, hashA, valueA).ins[0].sigScript == CoinbaseTx(b, hashB, valueB).ins[0].sigScript == t;
    assert s[1] == t[1] && s[2] == t[2] && s[3] == t[3] && s[4] == t[4];
    SameBytes(a, b);
    var p, q := PayToPubKeyHash(hashA), PayToPubKeyHash(hashB);
    assert p == CoinbaseTx(a, hashA, valueA).outs[0].pkScript == CoinbaseTx(b, hashB, valueB).outs[0].pkScript == q;
    assert hashA == p[3..|p| - 2] && hashB == q[3..|q| - 2];
    assert valueA == CoinbaseTx(a, hashA, valueA).outs[0].value == CoinbaseTx(b, hashB, valueB).outs[0].value;
  }

  lemma SameBytes(a: uint32, b: uint32)
    requires HeightBytes(a) == HeightBytes(b)
    ensures a == b
  {
    var s, t := HeightBytes(a), HeightBytes(b);
    assert s[0] == t[0] && s[1] == t[1] && s[2] == t[2] && s[3] == t[3];
    Recompose(a);
    Recompose(b);
  }

  lemma Recompose(a: uint32)
    ensures var s := HeightBytes(a);
      a == ((s[3] as int * 256 + s[2] as int) * 256 + s[1] as int) * 256 + s[0] as int
  {
    var q := a / 256;
    var p := q / 256;
    assert a / 0x1_0000 == p && a / 0x100_0000 == p / 256;
    assert a == q * 256 + a % 256 && q == p * 256 + q % 256 && p == p / 256 * 256 + p % 256;
  }

  lemma CoinbaseIsOne(height: uint32, hash: Script, value: int64)
    requires MoneyRange(value)
    ensures var cb := CoinbaseTx(height, hash, value);
      && IsCoinbase(cb) && |cb.outs| == 1 && OutputsOk(cb.outs, 1) && SumOut(cb.outs, 1) == value as int
      && |cb.ins[0].sigScript| == 16 && cb.lockTime == 0
  {
    var cb := CoinbaseTx(height, hash, value);
    assert SumOut(cb.outs, 0) == 0 && OutputsOk(cb.outs, 0);
  }

  // ----- Selection -----

  /** What a list of pool entries keeps, however it is cut. */
  ghost predicate Compatible(rules: TxRules, policy: Policy, entries: seq<Pooled>) {
    && (forall i :: 0 <= i < |entries| ==> Vetted(rules, policy, entries[i]))
    && (forall i, j :: 0 <= i < j < |entries| ==>
          entries[i].txid != entries[j].txid && Inputs(entries[i].tx) !! Inputs(entries[j].tx))
  }

  /** The topological listing of a pool is such a list: live inputs have one spender each. */
  lemma ListingIsCompatible(rules: TxRules, policy: Policy, g: Dag, order: seq<TxId>, limit: int)
    requires DagOk(g) && AllVetted(rules, policy, g.entries)
    requires ListsAll(g, order)
    ensures Compatible(rules, policy, Listed(g.entries, order, limit))
  {
    hide *;
    var out := Listed(g.entries, order, limit);
    ListedAt(rules, policy, g, order, limit);
    DagSpent(g);
    forall i, j | 0 <= i < j < |out|
      ensures out[i].txid != out[j].txid && Inputs(out[i].tx) !! Inputs(out[j].tx)
    {
      OneSpender(g, order[i], order[j]);
    }
    CompatibleIs(rules, policy, out);
  }

  lemma DagSpent(g: Dag)
    requires DagOk(g)
    ensures SpentOk(g)
  {
  }

  lemma ListedAt(rules: TxRules, policy: Policy, g: Dag, order: seq<TxId>, limit: int)
    requires AllVetted(rules, policy, g.entries)
    requires ListsAll(g, order)
    ensures var out := Listed(g.entries, order, limit);
      && |out| <= |order|
      && (forall i :: 0 <= i < |out| ==>
            order[i] in g.entries && out[i] == g.entries[order[i]] && out[i].txid == order[i] && Vetted(rules, policy, out[i]))
      && (forall i, j :: 0 <= i < j < |out| ==> order[i] != order[j])
  {
    hide Vetted, ParentsIn;
  }

  lemma CompatibleIs(rules: TxRules, policy: Policy, es: seq<Pooled>)
    requires forall i :: 0 <= i < |es| ==> Vetted(rules, policy, es[i])
    requires forall i, j :: 0 <= i < j < |es| ==> es[i].txid != es[j].txid && Inputs(es[i].tx) !! Inputs(es[j].tx)
    ensures Compatible(rules, policy, es)
  {
    hide Vetted, Inputs;
  }

  lemma OneSpender(g: Dag, a: TxId, b: TxId)
    requires SpentOk(g) && a in g.entries && b in g.entries && a != b
    ensures Inputs(g.entries[a].tx) !! Inputs(g.entries[b].tx)
  {
    forall k | k in Inputs(g.entries[a].tx)
      ensures k !in Inputs(g.entries[b].tx)
    {
      assert g.spent[k] == a;
    }
  }

  predicate InputReady(utxo: UtxoSet, k: OutPoint, included: set<TxId>, height: int) {
    k.hash in included || (k in utxo && Mature(utxo[k], height))
  }

  predicate Buildable(utxo: UtxoSet, tx: Tx, included: set<TxId>, height: int) {
    |tx.ins| > 0 && forall j :: 0 <= j < |tx.ins| ==> InputReady(utxo, tx.ins[j].prev, included, height)
  }

  function IdsOf(es: seq<Pooled>): set<TxId> {
    set i | 0 <= i < |es| :: es[i].txid
  }

  function TxsOf(es: seq<Pooled>): seq<Tx> {
    seq(|es|, i requires 0 <= i < |es| => es[i].tx)
  }

  /** Entries in order, each kept when it can be built on what was kept before it. */
  function Select(utxo: UtxoSet, entries: seq<Pooled>, n: nat, height: int): seq<Pooled>
    requires n <= |entries|
  {
    if n == 0 then []
    else
      var kept := Select(utxo, entries, n - 1, height);
      if Buildable(utxo, entries[n - 1].tx, IdsOf(kept), height) then kept + [entries[n - 1]] else kept
  }

  function FeeSum(es: seq<Pooled>): int {
    if |es| == 0 then 0 else FeeSum(es[..|es| - 1]) + es[|es| - 1].fee as int
  }

  /** Each entry of `es` can be built on the entries before it. */
  ghost predicate Buildables(utxo: UtxoSet, es: seq<Pooled>, height: int) {
    forall i :: 0 <= i < |es| ==> Buildable(utxo, es[i].tx, IdsOf(es[..i]), height)
  }

  lemma {:induction false} SelectedFacts(rules: TxRules, policy: Policy, utxo: UtxoSet, entries: seq<Pooled>, n: nat, height: int)
    requires n <= |entries| && Compatible(rules, policy, entries)
    ensures var kept := Select(utxo, entries, n, height);
      && Compatible(rules, policy, kept) && Buildables(utxo, kept, height)
      && forall i :: 0 <= i < |kept| ==> kept[i] in entries[..n]
  {
    hide Vetted, Buildable, IdsOf, Inputs;
    if n > 0 {
      SelectedFacts(rules, policy, utxo, entries, n - 1, height);
      var kept := Select(utxo, entries, n - 1, height);
      var e := entries[n - 1];
      forall i | 0 <= i < |kept|
        ensures kept[i] in entries[..n] && kept[i].txid != e.txid && Inputs(kept[i].tx) !! Inputs(e.tx)
      {
        var k :| 0 <= k < n - 1 && entries[..n - 1][k] == kept[i];
        assert entries[..n][k] == entries[k] == kept[i];
      }
      if Buildable(utxo, e.tx, IdsOf(kept), height) {
        BuildMore(utxo, kept, e, height);
        assert entries[..n][n - 1] == e;
      }
    }
  }

  lemma BuildMore(utxo: UtxoSet, kept: seq<Pooled>, e: Pooled, height: int)
    requires Buildables(utxo, kept, height) && Buildable(utxo, e.tx, IdsOf(kept), height)
    ensures Buildables(utxo, kept + [e], height)
  {
    var more := kept + [e];
    forall i | 0 <= i < |more|
      ensures Buildable(utxo, more[i].tx, IdsOf(more[..i]), height)
    {
      assert more[..i] == if i < |kept| then kept[..i] else kept;
      hide Buildable, IdsOf;
    }
  }

  // ----- What the selection does when it runs -----

  /** The set after the coinbase and the first n selected transactions. */
  function After(utxo: UtxoSet, cb: Tx, es: seq<Pooled>, n: nat, height: int): UtxoSet
    requires n <= |es|
  {
    if n == 0 then ApplyTx(utxo, cb, height, true)
    else ApplyTx(After(utxo, cb, es, n - 1, height), es[n - 1].tx, height, false)
  }

  lemma {:induction false} AfterIsApplyTxs(utxo: UtxoSet, cb: Tx, es: seq<Pooled>, n: nat, height: int)
    requires n <= |es|
    ensures var txs := [cb] + TxsOf(es);
      |txs| == |es| + 1 && ApplyTxs(utxo, txs, n + 1, height) == After(utxo, cb, es, n, height)
  {
    hide ApplyTx;
    var txs := [cb] + TxsOf(es);
    if n > 0 {
      AfterIsApplyTxs(utxo, cb, es, n - 1, height);
      assert txs[n] == es[n - 1].tx;
    } else {
      assert ApplyTxs(utxo, txs, 0, height) == utxo;
    }
  }

  /** `k` is spent by none of the first n selected transactions. */
  ghost predicate Unspent(es: seq<Pooled>, n: nat, k: OutPoint)
    requires n <= |es|
  {
    forall i :: 0 <= i < n ==> k !in Inputs(es[i].tx)
  }

  /** A stored output stays until it is spent, and an output of a selected transaction too; what a
    selected transaction made is never subject to maturity. */
  lemma {:induction false} StillThere(utxo: UtxoSet, cb: Tx, es: seq<Pooled>, n: nat, height: int, k: OutPoint)
    requires n <= |es| && OutKeys(cb) !! utxo.Keys && Unspent(es, n, k)
    requires forall i :: 0 <= i < n ==> es[i].txid == HashOf(es[i].tx)
    ensures k in utxo ==> k in After(utxo, cb, es, n, height)
    ensures k in utxo && k.hash !in IdsOf(es[..n]) ==> After(utxo, cb, es, n, height)[k] == utxo[k]
    ensures k.hash in IdsOf(es[..n]) && k.hash.HashOf? && k.index < |k.hash.tx.outs| ==>
      k in After(utxo, cb, es, n, height) && !After(utxo, cb, es, n, height)[k].coinbase
  {
    hide Inputs;
    if n == 0 {
      assert es[..0] == [];
    } else {
      StillThere(utxo, cb, es, n - 1, height, k);
      var tx := es[n - 1].tx;
      IdsStep(es, n - 1);
      OneMore(After(utxo, cb, es, n - 1, height), tx, height, k);
    }
  }

  lemma IdsStep(es: seq<Pooled>, n: nat)
    requires n < |es|
    ensures IdsOf(es[..n + 1]) == IdsOf(es[..n]) + {es[n].txid}
  {
    var more, front := es[..n + 1], es[..n];
    forall x | x in IdsOf(front)
      ensures x in IdsOf(more)
    {
      var i :| 0 <= i < n && front[i].txid == x;
      assert more[i].txid == x;
    }
    assert more[n].txid == es[n].txid;
    forall x | x in IdsOf(more)
      ensures x in IdsOf(front) + {es[n].txid}
    {
      var i :| 0 <= i <= n && more[i].txid == x;
      assert i < n ==> front[i].txid == x;
    }
  }

  /** One transaction leaves alone what it neither spends nor makes. */
  lemma OneMore(m: UtxoSet, tx: Tx, height: int, k: OutPoint)
    requires k !in Inputs(tx)
    ensures var after := ApplyTx(m, tx, height, false);
      && (k in m ==> k in after)
      && (k in m && k.hash != HashOf(tx) ==> after[k] == m[k])
      && (k.hash == HashOf(tx) && k.index < |tx.outs| ==> k in after && !after[k].coinbase)
      && (k in m && !m[k].coinbase ==> !after[k].coinbase)
  {
    assert k.hash == HashOf(tx) && k.index < |tx.outs| ==> k in OutKeys(tx) by {
      assert k == OutPoint(k.hash, k.index);
    }
    hide Inputs;
    assert Inputs(tx) == Spent(tx, false) by {
      InputsAre(tx);
    }
  }

  lemma SaneStep(m: UtxoSet, tx: Tx, height: int, coinbase: bool)
    requires Sane(m) && OutputsOk(tx.outs, |tx.outs|)
    ensures Sane(ApplyTx(m, tx, height, coinbase))
  {
    OutputsOkRange(tx.outs, |tx.outs|);
    var after := ApplyTx(m, tx, height, coinbase);
    forall k | k in after
      ensures EntrySane(k, after[k])
    {
      if k in OutKeys(tx) {
        assert Created(tx, height, coinbase)[k] == OutEntry(tx, k.index, height, coinbase);
      }
    }
  }

  lemma {:induction false} AfterSane(rules: TxRules, policy: Policy, utxo: UtxoSet, cb: Tx, es: seq<Pooled>, n: nat, height: int)
    requires n <= |es| && Sane(utxo) && OutputsOk(cb.outs, |cb.outs|)
    requires forall i :: 0 <= i < |es| ==> Vetted(rules, policy, es[i])
    ensures Sane(After(utxo, cb, es, n, height))
  {
    hide Sane, ApplyTx, OutputsOk, NamedOk;
    if n == 0 {
      SaneStep(utxo, cb, height, true);
    } else {
      AfterSane(rules, policy, utxo, cb, es, n - 1, height);
      SaneStep(After(utxo, cb, es, n - 1, height), es[n - 1].tx, height, false);
    }
  }

  /** On a sane set, inputs that are present and mature pass every input check of the reference,
    and bring in what their hashes name. */
  lemma {:induction false} PresentIsOk(rules: TxRules, m: UtxoSet, tx: Tx, n: nat, height: int)
    requires n <= |tx.ins| && Sane(m)
    requires forall j :: 0 <= j < n ==> NamedOk(rules, tx, j) && tx.ins[j].prev in m && Mature(m[tx.ins[j].prev], height)
    ensures InputsOk(rules, m, tx, n, height)
    ensures SumIn(m, tx.ins, n) == NamedIn(tx.ins, n) && InOps(rules, m, tx, n) == NamedOps(rules, tx, n)
  {
    hide Sane, Mature, InKeys;
    if n > 0 {
      PresentIsOk(rules, m, tx, n - 1, height);
      NamedHere(m, tx.ins[n - 1].prev);
    }
  }

  lemma NamedHere(m: UtxoSet, k: OutPoint)
    requires Sane(m) && k in m
    ensures NamedOut(k).Some? && m[k].value == NamedOut(k).value.value && m[k].pkScript == NamedOut(k).value.pkScript
  {
    assert EntrySane(k, m[k]);
  }

  /** Every input of every selected transaction is there and mature when its turn comes, and no
    outpoint is used twice. */
  lemma InputsReady(rules: TxRules, policy: Policy, utxo: UtxoSet, cb: Tx, es: seq<Pooled>, n: nat, height: int)
    requires n < |es| && Sane(utxo) && OutKeys(cb) !! utxo.Keys && OutputsOk(cb.outs, |cb.outs|)
    requires Compatible(rules, policy, es) && Buildables(utxo, es, height)
    ensures var m, tx := After(utxo, cb, es, n, height), es[n].tx;
      && InputsOk(rules, m, tx, |tx.ins|, height)
      && TxFee(m, tx) == es[n].fee as int >= 0
      && InOps(rules, m, tx, |tx.ins|) == NamedOps(rules, tx, |tx.ins|)
  {
    hide *;
    var m, tx := After(utxo, cb, es, n, height), es[n].tx;
    CompatibleParts(rules, policy, es);
    AfterSane(rules, policy, utxo, cb, es, n, height);
    VettedParts(rules, policy, es[n]);
    forall j | 0 <= j < |tx.ins|
      ensures NamedOk(rules, tx, j) && tx.ins[j].prev in m && Mature(m[tx.ins[j].prev], height)
    {
      InputHere(rules, policy, utxo, cb, es, n, height, j);
    }
    PresentIsOk(rules, m, tx, |tx.ins|, height);
    FeeIs(rules, m, es[n]);
  }

  lemma FeeIs(rules: TxRules, m: UtxoSet, e: Pooled)
    requires Sound(rules, e.tx, e.fee as int) && SumIn(m, e.tx.ins, |e.tx.ins|) == NamedIn(e.tx.ins, |e.tx.ins|)
    ensures TxFee(m, e.tx) == e.fee as int >= 0
  {
    hide NamedOk, OutputsOk, SumIn, SumOut, NamedIn;
  }

  lemma CompatibleParts(rules: TxRules, policy: Policy, es: seq<Pooled>)
    requires Compatible(rules, policy, es)
    ensures forall i :: 0 <= i < |es| ==> Vetted(rules, policy, es[i]) && es[i].txid == HashOf(es[i].tx)
  {
    hide Sound, Inputs;
  }

  lemma VettedParts(rules: TxRules, policy: Policy, e: Pooled)
    requires Vetted(rules, policy, e)
    ensures Sound(rules, e.tx, e.fee as int)
    ensures forall j :: 0 <= j < |e.tx.ins| ==> NamedOk(rules, e.tx, j)
    ensures OutputsOk(e.tx.outs, |e.tx.outs|) && !IsCoinbase(e.tx) && |e.tx.ins| > 0 && e.fee >= 0
    ensures OutOps(rules, e.tx.outs, |e.tx.outs|) + NamedOps(rules, e.tx, |e.tx.ins|) <= MAX_TX_SIG_OPS
  {
    hide NamedOk, OutputsOk, OutOps, NamedOps, NamedIn, SumOut, IsCoinbase;
  }

  lemma InputHere(rules: TxRules, policy: Policy, utxo: UtxoSet, cb: Tx, es: seq<Pooled>, n: nat, height: int, j: nat)
    requires n < |es| && OutKeys(cb) !! utxo.Keys && j < |es[n].tx.ins|
    requires Compatible(rules, policy, es) && Buildables(utxo, es, height)
    ensures var m, k := After(utxo, cb, es, n, height), es[n].tx.ins[j].prev;
      NamedOk(rules, es[n].tx, j) && k in m && Mature(m[k], height)
  {
    hide After, IdsOf, OutKeys, Sound;
    var k := es[n].tx.ins[j].prev;
    VettedParts(rules, policy, es[n]);
    CompatibleParts(rules, policy, es);
    assert k in Inputs(es[n].tx);
    assert InputReady(utxo, k, IdsOf(es[..n]), height);
    assert Unspent(es, n, k);
    StillThere(utxo, cb, es, n, height, k);
    assert NamedOk(rules, es[n].tx, j);
    assert NamedOut(k).Some?;
    hide Buildables, Compatible, Unspent, Inputs, Vetted, Buildable;
  }

  // ----- Fees -----

  lemma {:induction false} TotalNonNegative(m: UtxoSet)
    requires InRange(m)
    ensures Total(m) >= 0
    decreases |m|
  {
    if |m| > 0 {
      var k :| k in m && Total(m) == m[k].value as int + Total(m - {k});
      TotalNonNegative(m - {k});
    }
  }

  lemma SaneInRange(m: UtxoSet)
    requires Sane(m)
    ensures InRange(m)
  {
    forall k | k in m
      ensures MoneyRange(m[k].value) && m[k].key == k
    {
      assert EntrySane(k, m[k]);
    }
  }

  /** A spend lowers the total by at least its fee. */
  lemma FeeStep(rules: TxRules, m: UtxoSet, tx: Tx, height: int)
    requires InRange(m) && InputsOk(rules, m, tx, |tx.ins|, height)
    ensures Total(ApplyTx(m, tx, height, false)) <= Total(m) - TxFee(m, tx)
  {
    hide Total, InputsOk, SumIn, SumOut, OutKeys, CreatedFirst;
    TotalSpend(rules, m, tx, |tx.ins|, height);
    var rest := m - InKeys(tx.ins, |tx.ins|);
    TotalCreate(rest, tx, |tx.outs|, height, false);
    AllCreated(tx, height);
    hide InKeys, Created;
  }

  lemma AllCreated(tx: Tx, height: int)
    ensures CreatedFirst(tx, |tx.outs|, height, false) == Created(tx, height, false)
  {
  }

  /** The fees of a selection are paid out of the unspent set. */
  lemma {:induction false} FeesArePaid(rules: TxRules, policy: Policy, utxo: UtxoSet, cb: Tx, es: seq<Pooled>, n: nat, height: int)
    requires n <= |es| && Sane(utxo) && OutKeys(cb) !! utxo.Keys && OutputsOk(cb.outs, |cb.outs|)
    requires Compatible(rules, policy, es) && Buildables(utxo, es, height)
    ensures Total(After(utxo, cb, es, n, height)) <= Total(utxo) + SumOut(cb.outs, |cb.outs|) - FeeSum(es[..n])
  {
    hide Total, Sane, OutputsOk, Compatible, Buildables, SumOut, OutKeys, InputsOk, ApplyTx, TxFee;
    if n == 0 {
      assert es[..0] == [];
      CoinbasePays(utxo, cb, height);
    } else {
      FeesArePaid(rules, policy, utxo, cb, es, n - 1, height);
      InputsReady(rules, policy, utxo, cb, es, n - 1, height);
      CompatibleParts(rules, policy, es);
      AfterSane(rules, policy, utxo, cb, es, n - 1, height);
      SaneInRange(After(utxo, cb, es, n - 1, height));
      FeeStep(rules, After(utxo, cb, es, n - 1, height), es[n - 1].tx, height);
      assert es[..n][..n - 1] == es[..n - 1] && es[..n][n - 1] == es[n - 1];
    }
  }

  lemma CoinbasePays(utxo: UtxoSet, cb: Tx, height: int)
    requires Sane(utxo)
    ensures Total(ApplyTx(utxo, cb, height, true)) <= Total(utxo) + SumOut(cb.outs, |cb.outs|)
  {
    hide Total, SumOut, OutKeys, CreatedFirst;
    SaneInRange(utxo);
    TotalCreate(utxo, cb, |cb.outs|, height, true);
    assert utxo - {} == utxo;
    assert CreatedFirst(cb, |cb.outs|, height, true) == Created(cb, height, true) by {
      CoinbaseCreated(cb, height);
    }
    hide Created;
  }

  lemma CoinbaseCreated(cb: Tx, height: int)
    ensures CreatedFirst(cb, |cb.outs|, height, true) == Created(cb, height, true)
  {
  }

  /** So they never exceed what the unspent set is worth: no sum of them overflows. */
  lemma FeesFit(rules: TxRules, policy: Policy, utxo: UtxoSet, es: seq<Pooled>, height: int)
    requires Sane(utxo) && Compatible(rules, policy, es) && Buildables(utxo, es, height)
    ensures FeeSum(es) <= Total(utxo)
  {
    var cb := Tx(0, [], [], 0);
    assert SumOut(cb.outs, 0) == 0 && OutKeys(cb) == {} && OutputsOk(cb.outs, 0);
    FeesArePaid(rules, policy, utxo, cb, es, |es|, height);
    CompatibleParts(rules, policy, es);
    AfterSane(rules, policy, utxo, cb, es, |es|, height);
    assert es[..|es|] == es;
    hide *;
    SaneInRange(After(utxo, cb, es, |es|, height));
    TotalNonNegative(After(utxo, cb, es, |es|, height));
  }

  /** What the builder asks for but does not enforce: finality at this height and time, the
    block-wide limit on signature operations, and the block size. */
  ghost predicate Limits(rules: TxRules, utxo: UtxoSet, block: Block, height: int) {
    && rules.blockSize(block) <= MAX_BLOCK_SIZE
    && (forall i :: 0 <= i < |block.txs| ==> IsFinalizedTx(block.txs[i], height, block.header.time))
    && (forall n :: 0 <= n <= |block.txs| ==> BlockOps(rules, utxo, block.txs, n, height) <= MAX_BLOCK_SIG_OPS)
    && (|block.txs| > 0 ==> OutOps(rules, block.txs[0].outs, |block.txs[0].outs|) <= MAX_TX_SIG_OPS)
  }

  lemma {:induction false} FeesAre(rules: TxRules, policy: Policy, utxo: UtxoSet, cb: Tx, es: seq<Pooled>, n: nat, height: int)
    requires n <= |es| && Sane(utxo) && OutKeys(cb) !! utxo.Keys && OutputsOk(cb.outs, |cb.outs|)
    requires Compatible(rules, policy, es) && Buildables(utxo, es, height)
    ensures var txs := [cb] + TxsOf(es);
      |txs| == |es| + 1 && Fees(utxo, txs, n + 1, height) == FeeSum(es[..n])
  {
    hide Sane, OutputsOk, Compatible, Buildables, OutKeys, InputsOk, ApplyTxs, TxFee, After;
    var txs := [cb] + TxsOf(es);
    if n == 0 {
      assert es[..0] == [];
    } else {
      FeesAre(rules, policy, utxo, cb, es, n - 1, height);
      AfterIsApplyTxs(utxo, cb, es, n - 1, height);
      InputsReady(rules, policy, utxo, cb, es, n - 1, height);
      assert txs[n] == es[n - 1].tx;
      assert es[..n][..n - 1] == es[..n - 1] && es[..n][n - 1] == es[n - 1];
    }
  }

  lemma {:induction false} FeeSumMonotone(rules: TxRules, policy: Policy, es: seq<Pooled>, n: nat)
    requires n <= |es| && forall i :: 0 <= i < |es| ==> Vetted(rules, policy, es[i])
    ensures 0 <= FeeSum(es[..n]) <= FeeSum(es)
    decreases |es| - n, n
  {
    hide Sound;
    if n < |es| {
      FeeSumMonotone(rules, policy, es, n + 1);
      VettedParts(rules, policy, es[n]);
      assert es[..n + 1][..n] == es[..n] && es[..n + 1][n] == es[n];
      FeeSumPositive(rules, policy, es[..n]);
    } else {
      assert es[..n] == es;
      FeeSumPositive(rules, policy, es);
    }
  }

  lemma {:induction false} FeeSumPositive(rules: TxRules, policy: Policy, es: seq<Pooled>)
    requires forall i :: 0 <= i < |es| ==> Vetted(rules, policy, es[i])
    ensures FeeSum(es) >= 0
  {
    hide Sound;
    if |es| > 0 {
      FeeSumPositive(rules, policy, es[..|es| - 1]);
      VettedParts(rules, policy, es[|es| - 1]);
    }
  }

  /** The selected transactions run one after another without any check of the reference failing. */
  lemma {:induction false} SelectionRuns(rules: TxRules, policy: Policy, utxo: UtxoSet, block: Block, cb: Tx, es: seq<Pooled>, n: nat, height: int)
    requires n <= |es| && Sane(utxo) && OutKeys(cb) !! utxo.Keys && OutputsOk(cb.outs, |cb.outs|) && IsCoinbase(cb)
    requires Compatible(rules, policy, es) && Buildables(utxo, es, height) && FeeSum(es) <= MAX_MONEY as int
    requires block.txs == [cb] + TxsOf(es) && Limits(rules, utxo, block, height)
    ensures |block.txs| == |es| + 1 && TxsOk(rules, utxo, block.txs, n + 1, height, block.header.time)
  {
    hide *;
    TxsCount(cb, es);
    CompatibleParts(rules, policy, es);
    if n == 0 {
      CoinbaseRuns(rules, utxo, block, cb, height);
    } else {
      SelectionRuns(rules, policy, utxo, block, cb, es, n - 1, height);
      FeesAre(rules, policy, utxo, cb, es, n, height);
      FeeSumMonotone(rules, policy, es, n);
      AfterIsApplyTxs(utxo, cb, es, n - 1, height);
      InputsReady(rules, policy, utxo, cb, es, n - 1, height);
      VettedParts(rules, policy, es[n - 1]);
      NewTx(rules, policy, cb, es, n - 1);
      LimitsAt(rules, utxo, block, n, height);
      SelectedOk(rules, After(utxo, cb, es, n - 1, height), es[n - 1], height, block.header.time);
      TxsOkNext(rules, utxo, block.txs, n, height, block.header.time);
    }
  }

  lemma TxsCount(cb: Tx, es: seq<Pooled>)
    ensures var txs := [cb] + TxsOf(es);
      |txs| == |es| + 1 && txs[0] == cb && forall i :: 0 <= i < |es| ==> txs[i + 1] == es[i].tx
  {
  }

  lemma LimitsAt(rules: TxRules, utxo: UtxoSet, block: Block, n: nat, height: int)
    requires Limits(rules, utxo, block, height) && n < |block.txs|
    ensures IsFinalizedTx(block.txs[n], height, block.header.time)
    ensures BlockOps(rules, utxo, block.txs, n + 1, height) <= MAX_BLOCK_SIG_OPS
  {
    hide IsFinalizedTx, BlockOps;
  }

  lemma SelectedOk(rules: TxRules, m: UtxoSet, e: Pooled, height: int, time: uint32)
    requires IsFinalizedTx(e.tx, height, time) && OutputsOk(e.tx.outs, |e.tx.outs|) && !IsCoinbase(e.tx) && |e.tx.ins| > 0
    requires InputsOk(rules, m, e.tx, |e.tx.ins|, height) && TxFee(m, e.tx) >= 0
    requires InOps(rules, m, e.tx, |e.tx.ins|) == NamedOps(rules, e.tx, |e.tx.ins|)
    requires OutOps(rules, e.tx.outs, |e.tx.outs|) + NamedOps(rules, e.tx, |e.tx.ins|) <= MAX_TX_SIG_OPS
    ensures TxOk(rules, m, e.tx, false, height, time)
  {
    hide IsFinalizedTx, OutputsOk, IsCoinbase, InputsOk, TxFee, InOps, NamedOps, OutOps;
  }

  lemma TxsOkNext(rules: TxRules, utxo: UtxoSet, txs: seq<Tx>, n: nat, height: int, time: uint32)
    requires 0 < n < |txs| && TxsOk(rules, utxo, txs, n, height, time) && txs[n] !in txs[..n]
    requires TxOk(rules, ApplyTxs(utxo, txs, n, height), txs[n], false, height, time)
    requires BlockOps(rules, utxo, txs, n + 1, height) <= MAX_BLOCK_SIG_OPS
    requires Fees(utxo, txs, n + 1, height) <= MAX_MONEY as int
    ensures TxsOk(rules, utxo, txs, n + 1, height, time)
  {
    hide TxOk, ApplyTxs, BlockOps, Fees;
  }

  lemma CoinbaseRuns(rules: TxRules, utxo: UtxoSet, block: Block, cb: Tx, height: int)
    requires |block.txs| > 0 && block.txs[0] == cb && OutputsOk(cb.outs, |cb.outs|) && Limits(rules, utxo, block, height)
    ensures TxsOk(rules, utxo, block.txs, 1, height, block.header.time)
  {
    hide OutputsOk, IsFinalizedTx, OutOps;
    assert ApplyTxs(utxo, block.txs, 0, height) == utxo && TxsOk(rules, utxo, block.txs, 0, height, block.header.time);
    assert BlockOps(rules, utxo, block.txs, 1, height) <= MAX_BLOCK_SIG_OPS;
    assert Fees(utxo, block.txs, 1, height) == 0;
    assert TxOps(rules, utxo, cb, true) == OutOps(rules, cb.outs, |cb.outs|);
    hide ApplyTxs, BlockOps, Fees, TxOps;
  }

  lemma NewTx(rules: TxRules, policy: Policy, cb: Tx, es: seq<Pooled>, n: nat)
    requires n < |es| && Compatible(rules, policy, es) && IsCoinbase(cb)
    ensures var txs := [cb] + TxsOf(es);
      |txs| == |es| + 1 && txs[n + 1] == es[n].tx && es[n].tx !in txs[..n + 1]
  {
    var txs := [cb] + TxsOf(es);
    CompatibleParts(rules, policy, es);
    VettedParts(rules, policy, es[n]);
    hide Vetted, IsCoinbase, Inputs;
    forall i | 0 <= i <= n
      ensures txs[i] != es[n].tx
    {
      if i > 0 {
        assert txs[i] == es[i - 1].tx && es[i - 1].txid != es[n].txid;
      }
    }
  }

  /** No block of the chain carries `cb` as its coinbase. */
  ghost predicate NewCoinbase(path: seq<Block>, cb: Tx) {
    forall i :: 0 <= i < |path| && |path[i].txs| > 0 ==> path[i].txs[0] != cb
  }

  /** What the template for `es` on `path` carries: a coinbase that claims the subsidy and the
    fees of `es`, and then `es` in order. */
  ghost predicate Carries(path: seq<Block>, block: Block, es: seq<Pooled>, hash: Script) {
    var value := BlockSubsidy(|path|) as int + FeeSum(es);
    && |path| < 0x1_0000_0000 && 0 <= value <= MAX_MONEY as int
    && block.txs == [CoinbaseTx(|path|, hash, value as int64)] + TxsOf(es)
  }

  /** A coinbase that no block of the chain carried makes keys the unspent set does not have. */
  lemma NewCoinbaseIsFresh(rules: TxRules, path: seq<Block>, cb: Tx)
    requires TxsValid(rules, path) && IsCoinbase(cb) && NewCoinbase(path, cb)
    ensures OutKeys(cb) !! Replay(path).Keys
  {
    hide IsCoinbase, TxsValid, RunOk, Run, Flat, Replay, StepOk;
    FlatOk(rules, path);
    RunIsReplay(path);
    forall k | k in OutKeys(cb)
      ensures k !in Replay(path)
    {
      if k in Run(Flat(path)) {
        var q := Maker(Flat(path), k);
        assert k.hash == HashOf(cb) == HashOf(Flat(path)[q].tx);
        RanAsCoinbase(Flat(path), q);
        var i := FlatOrigin(path, q);
      }
    }
  }

  lemma RanAsCoinbase(steps: seq<Step>, q: nat)
    requires q < |steps| && RunOk(steps) && IsCoinbase(steps[q].tx)
    ensures steps[q].coinbase
  {
    assert StepOk(Run(steps[..q]), steps[q]);
  }

  /** A template built from any pool on any valid chain passes the whole reference validator, the
    coinbase claim included, once it meets the limits the builder does not enforce. */
  lemma TemplateAccepted(rules: TxRules, policy: Policy, path: seq<Block>, block: Block, es: seq<Pooled>, hash: Script)
    requires TxsValid(rules, path) && Carries(path, block, es, hash)
    requires Compatible(rules, policy, es) && Buildables(Replay(path), es, |path|)
    requires |block.txs| > 0 && NewCoinbase(path, block.txs[0])
    requires Limits(rules, Replay(path), block, |path|)
    ensures BlockTxsOk(rules, Replay(path), block, |path|)
  {
    hide *;
    var utxo, cb := Replay(path), block.txs[0];
    CarriesParts(path, block, es, hash);
    SupplyBound(rules, path);
    NewCoinbaseIsFresh(rules, path, cb);
    SelectionFits(rules, policy, path, es);
    SelectionRuns(rules, policy, utxo, block, cb, es, |es|, |path|);
    FeesAre(rules, policy, utxo, cb, es, |es|, |path|);
    assert es[..|es|] == es;
    ClaimOk(rules, utxo, block, |path|);
  }

  lemma CarriesParts(path: seq<Block>, block: Block, es: seq<Pooled>, hash: Script)
    requires Carries(path, block, es, hash)
    ensures |block.txs| == |es| + 1 && block.txs == [block.txs[0]] + TxsOf(es)
    ensures var cb := block.txs[0];
      && IsCoinbase(cb) && |cb.outs| == 1 && OutputsOk(cb.outs, |cb.outs|) && |cb.ins[0].sigScript| == 16
      && SumOut(cb.outs, 1) == BlockSubsidy(|path|) as int + FeeSum(es)
  {
    var value := CarriedValue(path, block, es, hash);
    hide *;
    CoinbaseIsOne(|path|, hash, value);
    TxsCount(CoinbaseTx(|path|, hash, value), es);
  }

  lemma CarriedValue(path: seq<Block>, block: Block, es: seq<Pooled>, hash: Script) returns (value: int64)
    requires Carries(path, block, es, hash)
    ensures |path| < 0x1_0000_0000 && MoneyRange(value) && value as int == BlockSubsidy(|path|) as int + FeeSum(es)
    ensures block.txs == [CoinbaseTx(|path|, hash, value)] + TxsOf(es)
  {
    value := (BlockSubsidy(|path|) as int + FeeSum(es)) as int64;
    hide CoinbaseTx, FeeSum, BlockSubsidy, TxsOf;
  }

  /** The claim of subsidy plus fees stays within the money cap, because the fees come out of a
    set that the subsidies so far paid for. */
  lemma SelectionFits(rules: TxRules, policy: Policy, path: seq<Block>, es: seq<Pooled>)
    requires TxsValid(rules, path) && Compatible(rules, policy, es) && Buildables(Replay(path), es, |path|)
    ensures 0 <= FeeSum(es) <= MAX_MONEY as int
    ensures BlockSubsidy(|path|) as int + FeeSum(es) <= MAX_MONEY as int
  {
    hide *;
    SupplyBound(rules, path);
    FeesFit(rules, policy, Replay(path), es, |path|);
    CompatibleParts(rules, policy, es);
    FeeSumPositive(rules, policy, es);
    SubsidyCap(|path| + 1);
    NextSubsidy(|path|);
  }

  lemma NextSubsidy(n: nat)
    ensures SubsidySum(n + 1) == SubsidySum(n) + BlockSubsidy(n) as nat
    ensures BlockSubsidy(n) >= 0
  {
    hide BlockSubsidy;
  }

  lemma ClaimOk(rules: TxRules, utxo: UtxoSet, block: Block, height: int)
    requires |block.txs| > 0 && IsCoinbase(block.txs[0]) && |block.txs[0].ins[0].sigScript| == 16
    requires Limits(rules, utxo, block, height)
    requires TxsOk(rules, utxo, block.txs, |block.txs|, height, block.header.time)
    requires |block.txs[0].outs| == 1
    requires SumOut(block.txs[0].outs, 1) == BlockSubsidy(height) as int + Fees(utxo, block.txs, |block.txs|, height)
    ensures BlockTxsOk(rules, utxo, block, height)
  {
    hide TxsOk, Fees, SumOut, BlockOps, IsFinalizedTx, OutOps;
  }

  // ----- What is left out, and what is claimed -----

  /** The first m of `txs`, coinbase first, are what entries before the i-th put there; what comes
    after them is from later entries. */
  ghost predicate CutAt(entries: seq<Pooled>, txs: seq<Tx>, i: nat, m: nat)
    requires i < |entries|
  {
    && 0 < m <= |txs|
    && (forall q :: 1 <= q < m ==> exists a :: 0 <= a < i && txs[q] == entries[a].tx)
    && (forall q :: m <= q < |txs| ==> exists a :: i < a < |entries| && txs[q] == entries[a].tx)
  }

  /** On the set that the coinbase and the transactions taken before it leave, the i-th entry has an
    input that is absent or not mature. */
  ghost predicate Unfit(utxo: UtxoSet, entries: seq<Pooled>, txs: seq<Tx>, i: nat, height: int)
    requires i < |entries|
  {
    exists m, j ::
      && CutAt(entries, txs, i, m) && 0 <= j < |entries[i].tx.ins|
      && var before, k := ApplyTxs(utxo, txs, m, height), entries[i].tx.ins[j].prev;
      !(k in before && Mature(before[k], height))
  }

  /** A template leaves out only entries that do not fit it. */
  lemma LeftOutIsUnfit(rules: TxRules, policy: Policy, utxo: UtxoSet, entries: seq<Pooled>, cb: Tx, i: nat, height: int)
    requires Compatible(rules, policy, entries) && i < |entries|
    ensures var txs := [cb] + TxsOf(Select(utxo, entries, |entries|, height));
      entries[i].tx in txs || Unfit(utxo, entries, txs, i, height)
  {
    hide *;
    var kept, all := Select(utxo, entries, i, height), Select(utxo, entries, |entries|, height);
    var txs := [cb] + TxsOf(all);
    CompatibleParts(rules, policy, entries);
    SelectGrows(utxo, entries, i, i + 1, height);
    SelectGrows(utxo, entries, i + 1, |entries|, height);
    SelectOne(utxo, entries, i, height);
    TxsCount(cb, all);
    if Buildable(utxo, entries[i].tx, IdsOf(kept), height) {
      TakenIs(cb, all, |kept|);
    } else {
      VettedParts(rules, policy, entries[i]);
      var j := NotBuildable(utxo, entries[i].tx, IdsOf(kept), height);
      var k := entries[i].tx.ins[j].prev;
      AfterIsApplyTxs(utxo, cb, all, |kept|, height);
      SelectedFacts(rules, policy, utxo, entries, |entries|, height);
      CompatibleParts(rules, policy, all);
      assert all[..|kept|] == kept;
      NotMade(utxo, cb, all, |kept|, height, k);
      SelectCut(utxo, entries, cb, i, height);
      UnfitAt(utxo, entries, txs, i, height, |kept| + 1, j);
    }
  }

  /** Past the coinbase, `txs` are listed entries, and every other listed entry does not fit. */
  ghost predicate TakesWhatFits(utxo: UtxoSet, entries: seq<Pooled>, txs: seq<Tx>, height: int) {
    && (forall q :: 1 <= q < |txs| ==> exists a :: 0 <= a < |entries| && txs[q] == entries[a].tx)
    && (forall i :: 0 <= i < |entries| ==> entries[i].tx in txs || Unfit(utxo, entries, txs, i, height))
  }

  lemma LeftOutAll(rules: TxRules, policy: Policy, utxo: UtxoSet, entries: seq<Pooled>, cb: Tx, height: int)
    requires Compatible(rules, policy, entries)
    ensures TakesWhatFits(utxo, entries, [cb] + TxsOf(Select(utxo, entries, |entries|, height)), height)
  {
    var txs := [cb] + TxsOf(Select(utxo, entries, |entries|, height));
    hide Compatible, TxsOf, Select, Unfit;
    forall i | 0 <= i < |entries|
      ensures entries[i].tx in txs || Unfit(utxo, entries, txs, i, height)
    {
      LeftOutIsUnfit(rules, policy, utxo, entries, cb, i, height);
    }
    TakenFrom(utxo, entries, cb, height);
  }

  lemma TakenFrom(utxo: UtxoSet, entries: seq<Pooled>, cb: Tx, height: int)
    ensures var txs := [cb] + TxsOf(Select(utxo, entries, |entries|, height));
      forall q :: 1 <= q < |txs| ==> exists a :: 0 <= a < |entries| && txs[q] == entries[a].tx
  {
    var all := Select(utxo, entries, |entries|, height);
    var txs := [cb] + TxsOf(all);
    hide Select;
    forall q | 1 <= q < |txs|
      ensures exists a :: 0 <= a < |entries| && txs[q] == entries[a].tx
    {
      var a := SelectFrom(utxo, entries, |entries|, |entries|, height, q - 1);
      assert txs[q] == all[q - 1].tx == entries[a].tx;
    }
  }

  lemma UnfitAt(utxo: UtxoSet, entries: seq<Pooled>, txs: seq<Tx>, i: nat, height: int, m: nat, j: nat)
    requires i < |entries| && CutAt(entries, txs, i, m) && j < |entries[i].tx.ins|
    requires var before, k := ApplyTxs(utxo, txs, m, height), entries[i].tx.ins[j].prev;
      !(k in before && Mature(before[k], height))
    ensures Unfit(utxo, entries, txs, i, height)
  {
    hide CutAt, ApplyTxs, Mature;
  }

  lemma TakenIs(cb: Tx, es: seq<Pooled>, n: nat)
    requires n < |es|
    ensures es[n].tx in [cb] + TxsOf(es)
  {
    assert ([cb] + TxsOf(es))[n + 1] == es[n].tx;
  }

  lemma SelectOne(utxo: UtxoSet, entries: seq<Pooled>, i: nat, height: int)
    requires i < |entries|
    ensures var kept := Select(utxo, entries, i, height);
      Select(utxo, entries, i + 1, height) == if Buildable(utxo, entries[i].tx, IdsOf(kept), height) then kept + [entries[i]] else kept
  {
    hide Buildable, IdsOf;
  }

  lemma {:induction false} SelectGrows(utxo: UtxoSet, entries: seq<Pooled>, m: nat, n: nat, height: int)
    requires m <= n <= |entries|
    ensures Select(utxo, entries, m, height) <= Select(utxo, entries, n, height)
    decreases n
  {
    hide Buildable, IdsOf;
    if m < n {
      SelectGrows(utxo, entries, m, n - 1, height);
    }
  }

  /** Where each selected entry comes from. */
  lemma {:induction false} SelectFrom(utxo: UtxoSet, entries: seq<Pooled>, m: nat, n: nat, height: int, q: nat) returns (a: nat)
    requires m <= n <= |entries| && q < |Select(utxo, entries, n, height)|
    ensures a < n && Select(utxo, entries, n, height)[q] == entries[a]
    ensures q < |Select(utxo, entries, m, height)| <==> a < m
    decreases n
  {
    hide Buildable, IdsOf;
    var kept := Select(utxo, entries, n - 1, height);
    if m < n {
      SelectGrows(utxo, entries, m, n - 1, height);
    }
    if q < |kept| {
      a := SelectFrom(utxo, entries, if m < n then m else n - 1, n - 1, height, q);
    } else {
      a := n - 1;
    }
  }

  /** The cut below the i-th entry, when it was not taken. */
  lemma SelectCut(utxo: UtxoSet, entries: seq<Pooled>, cb: Tx, i: nat, height: int)
    requires i < |entries| && !Buildable(utxo, entries[i].tx, IdsOf(Select(utxo, entries, i, height)), height)
    ensures var kept, all := Select(utxo, entries, i, height), Select(utxo, entries, |entries|, height);
      CutAt(entries, [cb] + TxsOf(all), i, |kept| + 1)
  {
    var kept, all := Select(utxo, entries, i, height), Select(utxo, entries, |entries|, height);
    var txs := [cb] + TxsOf(all);
    SelectGrows(utxo, entries, i, |entries|, height);
    SelectOne(utxo, entries, i, height);
    hide Select, Buildable, IdsOf;
    forall q | 1 <= q < |txs|
      ensures q < |kept| + 1 ==> exists a :: 0 <= a < i && txs[q] == entries[a].tx
      ensures |kept| + 1 <= q ==> exists a :: i < a < |entries| && txs[q] == entries[a].tx
    {
      var a := SelectFrom(utxo, entries, i, |entries|, height, q - 1);
      var b := SelectFrom(utxo, entries, i + 1, |entries|, height, q - 1);
      assert txs[q] == all[q - 1].tx == entries[a].tx == entries[b].tx;
    }
  }

  lemma NotBuildable(utxo: UtxoSet, tx: Tx, included: set<TxId>, height: int) returns (j: nat)
    requires |tx.ins| > 0 && !Buildable(utxo, tx, included, height)
    ensures j < |tx.ins| && var k := tx.ins[j].prev;
      k.hash !in included && !(k in utxo && Mature(utxo[k], height))
  {
    hide Mature;
    j :| 0 <= j < |tx.ins| && !InputReady(utxo, tx.ins[j].prev, included, height);
  }

  /** What no selected transaction made is as it was stored, or gone, or made by the new coinbase,
    and so not mature unless it was. */
  lemma {:induction false} NotMade(utxo: UtxoSet, cb: Tx, es: seq<Pooled>, n: nat, height: int, k: OutPoint)
    requires n <= |es| && k.hash !in IdsOf(es[..n]) && forall i :: 0 <= i < n ==> es[i].txid == HashOf(es[i].tx)
    requires !(k in utxo && Mature(utxo[k], height))
    ensures var m := After(utxo, cb, es, n, height);
      !(k in m && Mature(m[k], height))
  {
    if n == 0 {
      assert k in OutKeys(cb) ==> Created(cb, height, true)[k] == OutEntry(cb, k.index, height, true);
    } else {
      IdsStep(es, n - 1);
      NotMade(utxo, cb, es, n - 1, height, k);
      assert k !in OutKeys(es[n - 1].tx);
    }
  }

  /** With a new coinbase the template claims exactly the subsidy and what its transactions pay when
    they run one after another. */
  lemma ClaimIsFees(rules: TxRules, policy: Policy, path: seq<Block>, block: Block, es: seq<Pooled>, hash: Script)
    requires TxsValid(rules, path) && Carries(path, block, es, hash)
    requires Compatible(rules, policy, es) && Buildables(Replay(path), es, |path|)
    requires |block.txs| > 0 && NewCoinbase(path, block.txs[0])
    ensures var cb := block.txs[0];
      && |cb.outs| == 1 && cb.outs[0].pkScript == PayToPubKeyHash(hash)
      && cb.outs[0].value as int == BlockSubsidy(|path|) as int + Fees(Replay(path), block.txs, |block.txs|, |path|)
  {
    hide *;
    var utxo, cb := Replay(path), block.txs[0];
    CarriesParts(path, block, es, hash);
    ClaimOut(path, block, es, hash);
    SupplyBound(rules, path);
    NewCoinbaseIsFresh(rules, path, cb);
    FeesAre(rules, policy, utxo, cb, es, |es|, |path|);
    assert es[..|es|] == es;
  }

  lemma ClaimOut(path: seq<Block>, block: Block, es: seq<Pooled>, hash: Script)
    requires Carries(path, block, es, hash) && |block.txs| > 0
    ensures var cb := block.txs[0];
      |cb.outs| == 1 && cb.outs[0].pkScript == PayToPubKeyHash(hash)
      && cb.outs[0].value as int == BlockSubsidy(|path|) as int + FeeSum(es)
  {
    hide FeeSum, BlockSubsidy, PayToPubKeyHash, HeightBytes;
  }

  // ----- The builder -----

  datatype TemplateError = BadAddress | NoTip | BadClock

  method TemplateTxIsBuildable(utxo: UtxoSet, tx: Tx, included: set<TxId>, height: int) returns (ok: bool)
    ensures ok <==> Buildable(utxo, tx, included, height)
  {
    if |tx.ins| == 0 {
      return false;
    }
    for j := 0 to |tx.ins|
      invariant forall i :: 0 <= i < j ==> InputReady(utxo, tx.ins[i].prev, included, height)
    {
      var key := tx.ins[j].prev;
      if key.hash in included {
        continue;
      }
      if key !in utxo {
        return false;
      }
      if utxo[key].coinbase && height - utxo[key].height < COINBASE_MATURITY {
        return false;
      }
    }
    ok := true;
  }

  /** The selection loop.  The running fee total stays below the worth of the unspent set. */
  method SelectTransactions(rules: TxRules, ghost policy: Policy, utxo: UtxoSet, entries: seq<Pooled>, height: int)
    returns (selected: seq<Tx>, totalFees: int64)
    requires Sane(utxo) && Compatible(rules, policy, entries) && Total(utxo) <= MAX_MONEY as int
    ensures var es := Select(utxo, entries, |entries|, height);
      && selected == TxsOf(es)
      && totalFees as int == FeeSum(es)
  {
    hide *;
    selected, totalFees := [], 0;
    var included: set<TxId> := {};
    SelectNone(utxo, entries, height);
    for i := 0 to |entries|
      invariant selected == TxsOf(Select(utxo, entries, i, height))
      invariant included == IdsOf(Select(utxo, entries, i, height))
      invariant totalFees as int == FeeSum(Select(utxo, entries, i, height))
    {
      SelectNext(rules, policy, utxo, entries, i, height);
      var entry := entries[i];
      var ok := TemplateTxIsBuildable(utxo, entry.tx, included, height);
      if !ok {
        continue;
      }
      totalFees := totalFees + entry.fee;
      selected := selected + [entry.tx];
      included := included + {HashOf(entry.tx)};
    }
  }

  lemma SelectNone(utxo: UtxoSet, entries: seq<Pooled>, height: int)
    ensures var es := Select(utxo, entries, 0, height);
      TxsOf(es) == [] && IdsOf(es) == {} && FeeSum(es) == 0
  {
  }

  lemma SelectNext(rules: TxRules, policy: Policy, utxo: UtxoSet, entries: seq<Pooled>, i: nat, height: int)
    requires Sane(utxo) && Compatible(rules, policy, entries) && Total(utxo) <= MAX_MONEY as int && i < |entries|
    ensures var es, e := Select(utxo, entries, i, height), entries[i];
      var more := Select(utxo, entries, i + 1, height);
      if Buildable(utxo, e.tx, IdsOf(es), height) then
        && TxsOf(more) == TxsOf(es) + [e.tx]
        && IdsOf(more) == IdsOf(es) + {HashOf(e.tx)}
        && FeeSum(more) == FeeSum(es) + e.fee as int
        && 0 <= FeeSum(es) + e.fee as int <= MAX_MONEY as int
        && MAX_MONEY == 2_100_000_000_000_000
      else more == es
  {
    hide Sane, Compatible, Buildable, Total, IdsOf, TxsOf, FeeSum, Vetted;
    var es, e := Select(utxo, entries, i, height), entries[i];
    CompatibleParts(rules, policy, entries);
    if Buildable(utxo, e.tx, IdsOf(es), height) {
      var more := es + [e];
      SelectedFacts(rules, policy, utxo, entries, i + 1, height);
      FeesFit(rules, policy, utxo, more, height);
      CompatibleParts(rules, policy, more);
      FeeSumPositive(rules, policy, more);
      MoreOf(es, e);
    }
  }

  lemma MoreOf(es: seq<Pooled>, e: Pooled)
    ensures var more := es + [e];
      TxsOf(more) == TxsOf(es) + [e.tx] && IdsOf(more) == IdsOf(es) + {e.txid} && FeeSum(more) == FeeSum(es) + e.fee as int
  {
    var more := es + [e];
    assert more[..|es|] == es && more[|es|] == e && more[..|es| + 1] == more;
    IdsStep(more, |es|);
  }

  /** Builds a template on the tip; `recent` is the difficulty window of the chain.  What comes out
    asks for the bits the chain requires next, claims exactly the subsidy and the fees of the
    transactions it carries, and passes the reference validator once it meets the limits that the
    builder leaves to the caller.  With a header that is then mined in time it is a valid block. */
  method NewBlockTemplate(params: Params, ghost policy: Policy, tip: Option<BlockIndex>, utxo: UtxoSet, recent: seq<BlockWindowEntry>,
                          entries: seq<Pooled>, hash: Script, now: int, ghost path: seq<Block>)
    returns (r: Result<Block, TemplateError>)
    requires Compatible(params.txRules, policy, entries) && TxsValid(params.txRules, path) && utxo == Replay(path)
    requires |path| < 0x8000_0000
    requires tip.None? <==> |path| == 0
    requires tip.Some? ==> tip.value.height == |path| - 1 && tip.value.hash == TipOf(path)
    requires recent == Recent(HeadersOf(path), DGW_PAST_BLOCKS)
    ensures r.Ok? <==> |hash| == 20 && tip.Some? && 0 <= now < 0x1_0000_0000
    ensures r.Ok? ==>
      var block := r.value;
      && Carries(path, block, Select(utxo, entries, |entries|, |path|), hash) && |block.txs| > 0
      && block.header.prev == tip.value.hash && block.header.bits == RequiredBits(params, recent)
      && block.header.merkle == MerkleRoot(block.txs)
      && (block.header.time > tip.value.time || tip.value.time == MAX_UINT32)
      && (now > tip.value.time ==> block.header.time == now)
      && TakesWhatFits(utxo, entries, block.txs, |path|)
      && (NewCoinbase(path, block.txs[0]) ==>
            && |block.txs[0].outs| == 1 && block.txs[0].outs[0].pkScript == PayToPubKeyHash(hash)
            && block.txs[0].outs[0].value as int
               == BlockSubsidy(|path|) as int + Fees(utxo, block.txs, |block.txs|, |path|))
      && (NewCoinbase(path, block.txs[0]) && Limits(params.txRules, utxo, block, |path|) ==>
            && BlockTxsOk(params.txRules, utxo, block, |path|)
            && forall nonce: uint32, clock: Clock :: MinedOn(params, path, block, nonce, clock) ==>
                 BlockOk(params, path, block.(header := block.header.(nonce := nonce)), clock))
  {
    if |hash| != 20 {
      return Err(BadAddress);
    }
    if tip.None? {
      return Err(TemplateError.NoTip);
    }
    hide *;
    var bits := RequiredBitsFromRecent(params, recent);
    var height := tip.value.height + 1;
    BuilderReady(params.txRules, policy, path, entries);
    var selected, totalFees := SelectTransactions(params.txRules, policy, utxo, entries, height);
    var value := BlockSubsidy(height) + totalFees;
    if now < 0 || now > 0xFFFF_FFFF {
      return Err(BadClock);
    }
    var txs := [CoinbaseTx(height, hash, value)] + selected;
    var block := Block(Header(1, tip.value.hash, MerkleRoot(txs), Timestamp(now, tip.value.time), bits, 0), txs);
    Accepted(params.txRules, policy, path, block, entries, hash, value);
    LeftOutAll(params.txRules, policy, utxo, entries, txs[0], |path|);
    if NewCoinbase(path, block.txs[0]) {
      ClaimIsFees(params.txRules, policy, path, block, Select(utxo, entries, |entries|, |path|), hash);
    }
    if NewCoinbase(path, block.txs[0]) && Limits(params.txRules, utxo, block, |path|) {
      MinedIsOk(params, path, block);
    }
    r := Ok(block);
  }

  /** What mining adds: a nonce with enough work, on a time that the rules allow. */
  ghost predicate MinedOn(params: Params, path: seq<Block>, block: Block, nonce: uint32, clock: Clock) {
    var recent := Recent(HeadersOf(path), DGW_PAST_BLOCKS);
    && MedianTime(recent) < block.header.time <= clock + MAX_FUTURE_DRIFT
    && CheckProofOfWork(params.powValue(HeaderHash(block.header.(nonce := nonce))), block.header.bits)
    && params.txRules.blockSize(block.(header := block.header.(nonce := nonce))) <= MAX_BLOCK_SIZE
  }

  lemma {:induction false} MinedIsOk(params: Params, path: seq<Block>, block: Block)
    requires |path| > 0 && |block.txs| > 0 && block.header.prev == TipOf(path) && block.header.merkle == MerkleRoot(block.txs)
    requires block.header.bits == RequiredBits(params, Recent(HeadersOf(path), DGW_PAST_BLOCKS))
    requires BlockTxsOk(params.txRules, Replay(path), block, |path|)
    ensures forall nonce: uint32, clock: Clock :: MinedOn(params, path, block, nonce, clock) ==>
      BlockOk(params, path, block.(header := block.header.(nonce := nonce)), clock)
  {
    forall nonce: uint32, clock: Clock | MinedOn(params, path, block, nonce, clock)
      ensures BlockOk(params, path, block.(header := block.header.(nonce := nonce)), clock)
    {
      var mined := block.(header := block.header.(nonce := nonce));
      HeaderParts(params, path, mined.header, clock);
      SameBody(params.txRules, Replay(path), block, mined, |path|);
      hide Recent, RequiredBits, MedianTime, CheckProofOfWork, BlockTxsOk, HeaderOk, Replay, MerkleRoot;
      BlockOkIs(params, path, mined, clock);
    }
    hide BlockOk, MinedOn;
  }

  /** The transaction rules read nothing of a header but its time. */
  lemma SameBody(rules: TxRules, utxo: UtxoSet, a: Block, b: Block, height: int)
    requires BlockTxsOk(rules, utxo, a, height) && a.txs == b.txs && a.header.time == b.header.time
    requires rules.blockSize(b) <= MAX_BLOCK_SIZE
    ensures BlockTxsOk(rules, utxo, b, height)
  {
    hide TxsOk, Fees, SumOut, BlockSubsidy;
  }

  /** The clock, pushed past the tip's time; the increment wraps in 32 bits. */
  function Timestamp(now: uint32, tipTime: uint32): (r: uint32)
    ensures r > tipTime || tipTime == MAX_UINT32
    ensures now > tipTime ==> r == now
  {
    if now <= tipTime then (tipTime + 1) % 0x1_0000_0000 else now
  }

  lemma BuilderReady(rules: TxRules, policy: Policy, path: seq<Block>, entries: seq<Pooled>)
    requires TxsValid(rules, path) && Compatible(rules, policy, entries)
    ensures Sane(Replay(path)) && Total(Replay(path)) <= MAX_MONEY as int
    ensures var es := Select(Replay(path), entries, |entries|, |path|);
      && Compatible(rules, policy, es) && Buildables(Replay(path), es, |path|)
      && 0 <= FeeSum(es) <= MAX_MONEY as int && 0 <= BlockSubsidy(|path|) as int + FeeSum(es) <= MAX_MONEY as int
    ensures MAX_MONEY == 2_100_000_000_000_000 && 0 <= BlockSubsidy(|path|)
  {
    assert MAX_MONEY == 2_100_000_000_000_000;
    hide *;
    SupplyCap(rules, path);
    SupplyBound(rules, path);
    SelectedFacts(rules, policy, Replay(path), entries, |entries|, |path|);
    SelectionFits(rules, policy, path, Select(Replay(path), entries, |entries|, |path|));
    NextSubsidy(|path|);
  }

  lemma Accepted(rules: TxRules, policy: Policy, path: seq<Block>, block: Block, entries: seq<Pooled>, hash: Script, value: int64)
    requires TxsValid(rules, path) && |path| < 0x8000_0000 && Compatible(rules, policy, entries)
    requires var es := Select(Replay(path), entries, |entries|, |path|);
      && value as int == BlockSubsidy(|path|) as int + FeeSum(es)
      && block.txs == [CoinbaseTx(|path|, hash, value)] + TxsOf(es)
    ensures |block.txs| > 0 && Carries(path, block, Select(Replay(path), entries, |entries|, |path|), hash)
    ensures NewCoinbase(path, block.txs[0]) && Limits(rules, Replay(path), block, |path|) ==>
      BlockTxsOk(rules, Replay(path), block, |path|)
  {
    hide *;
    var es := Select(Replay(path), entries, |entries|, |path|);
    BuilderReady(rules, policy, path, entries);
    CarriesIs(path, block, es, hash, value);
    if NewCoinbase(path, block.txs[0]) && Limits(rules, Replay(path), block, |path|) {
      TemplateAccepted(rules, policy, path, block, es, hash);
    }
  }

  lemma CarriesIs(path: seq<Block>, block: Block, es: seq<Pooled>, hash: Script, value: int64)
    requires |path| < 0x8000_0000 && value as int == BlockSubsidy(|path|) as int + FeeSum(es)
    requires 0 <= value as int <= MAX_MONEY as int && block.txs == [CoinbaseTx(|path|, hash, value)] + TxsOf(es)
    ensures Carries(path, block, es, hash) && |block.txs| > 0
  {
    hide CoinbaseTx, FeeSum, BlockSubsidy;
  }

  /** A template on the active chain, once its header is mined and it meets the limits left to the
    caller, is a block that the chain connects. */
  lemma TemplateConnects(params: Params, world: iset<Block>, d: Disk, path: seq<Block>, tip: Option<BlockIndex>, clock: Clock,
                         policy: Policy, block: Block, es: seq<Pooled>, hash: Script)
    requires Core(params, world, d, path, tip, clock) && |path| > 0
    requires |block.txs| > 0 && NewCoinbase(path, block.txs[0])
    requires Compatible(params.txRules, policy, es) && Buildables(Replay(path), es, |path|) && Carries(path, block, es, hash)
    requires block.header.merkle == MerkleRoot(block.txs) && HeaderOk(params, HeadersOf(path), block.header, clock)
    requires Limits(params.txRules, Replay(path), block, |path|)
    ensures BlockOk(params, path, block, clock)
  {
    hide *;
    CorePath(params, world, d, path, tip, clock);
    ValidPathFacts(params, path, clock);
    CarriesParts(path, block, es, hash);
    TemplateAccepted(params.txRules, policy, path, block, es, hash);
    BlockOkIs(params, path, block, clock);
  }

  lemma CorePath(params: Params, world: iset<Block>, d: Disk, path: seq<Block>, tip: Option<BlockIndex>, clock: Clock)
    requires Core(params, world, d, path, tip, clock)
    ensures ValidPath(params, path, clock)
  {
    hide WorldOk, InWorld, ValidPath, StoreOk, IndexClosed;
  }

  lemma BlockOkIs(params: Params, path: seq<Block>, block: Block, clock: Clock)
    requires |block.txs| > 0 && block.header.merkle == MerkleRoot(block.txs)
    requires HeaderOk(params, HeadersOf(path), block.header, clock) && BlockTxsOk(params.txRules, Replay(path), block, |path|)
    ensures BlockOk(params, path, block, clock)
  {
    hide HeaderOk, BlockTxsOk, MerkleRoot, Replay;
  }
}
