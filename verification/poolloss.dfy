/** A run on which a refused transaction costs the pool an entry. */
module PoolLoss {
  import opened Wire
  import opened ChainCfg
  import opened Ledger
  import opened PoolDag
  import opened Mempool
  import opened TxPool
  import opened EasyChain

  const ANY: Policy := Policy((t: Tx) => 100, (t: Tx) => true, (t: Tx, j: nat, s: Script) => true)

  /** A transaction with one output to spend. */
  function Purse(tag: int): Tx {
    Tx(tag, [TxIn(OutPoint(ZeroTxId, MAX_UINT32), [0, 0], 0)], [TxOut(10_000, [])], 0)
  }

  function Spender(tag: int, out: int64): Tx {
    Tx(0, [TxIn(OutPoint(HashOf(Purse(tag)), 0), [], 0)], [TxOut(out, [])], 0)
  }

  function Offer(tag: int, out: int64): Pooled
    requires 0 <= out <= 10_000
  {
    Pooled(Spender(tag, out), HashOf(Spender(tag, out)), 10_000 - out, 100)
  }

  lemma OfferVetted(tag: int, out: int64)
    requires 0 <= out <= 9_900
    ensures Vetted(FREE, ANY, Offer(tag, out))
  {
    var tx := Spender(tag, out);
    assert OutputsOk(tx.outs, 0) && SumOut(tx.outs, 0) == 0;
    assert SumOut(tx.outs, 1) == out as int && OutputsOk(tx.outs, 1);
    assert NamedIn(tx.ins, 0) == 0 && NamedIn(tx.ins, 1) == NamedValue(tx.ins[0].prev) == 10_000;
    assert InKeys(tx.ins, 0) == {};
    FreeOutOps(tx.outs, 1);
    FreeNamedOps(tx);
    hide OutputsOk, SumOut, NamedIn, NamedOps, OutOps, InKeys;
  }

  lemma FreeNamedOps(tx: Tx)
    requires |tx.ins| == 1
    ensures NamedOps(FREE, tx, 1) == 0
  {
    assert NamedOps(FREE, tx, 0) == 0;
  }

  /** The one outpoint an offer spends. */
  lemma OfferInputs(tag: int, out: int64)
    requires 0 <= out <= 10_000
    ensures Inputs(Offer(tag, out).tx) == {OutPoint(HashOf(Purse(tag)), 0)}
    ensures Offer(tag, out).txid == HashOf(Offer(tag, out).tx) && Offer(tag, out).tx.ins[0].prev.hash == HashOf(Purse(tag))
    ensures |Offer(tag, out).tx.ins| == 1
  {
    assert Inputs(Spender(tag, out)) == {Spender(tag, out).ins[0].prev};
  }

  lemma NotPurses(tag: int, out: int64, other: int)
    requires 0 <= out <= 10_000
    ensures HashOf(Purse(other)) != Offer(tag, out).txid
  {
    assert Purse(other).ins[0].prev.hash == ZeroTxId && Spender(tag, out).ins[0].prev.hash == HashOf(Purse(tag));
  }

  /** Inserting an offer whose purse is not in the pool. */
  lemma InsertedOffer(g: Dag, tag: int, out: int64)
    requires 0 <= out <= 10_000 && g.childs == map[] && HashOf(Purse(tag)) !in g.entries
    ensures var e, h := Offer(tag, out), Inserted(g, Offer(tag, out));
      && h.entries == g.entries[e.txid := e] && h.childs == map[]
      && h.spent == g.spent[OutPoint(HashOf(Purse(tag)), 0) := e.txid]
    ensures var e := Offer(tag, out);
      Insertable(g, e) <==> e.txid !in g.entries && OutPoint(HashOf(Purse(tag)), 0) !in g.spent
  {
    var e := Offer(tag, out);
    OfferInputs(tag, out);
    assert LiveParents(g.entries, e.tx.ins, |e.tx.ins|) == {};
    hide Depth, Offer, Purse;
  }

  /** Two offers on different purses; a third on the first purse outbids only the second. */
  function Rich(): Pooled { Offer(0, 9_000) }

  function Poor(): Pooled { Offer(1, 9_800) }

  function Rival(): Pooled { Offer(0, 9_500) }

  lemma OffersDiffer()
    ensures Rich().txid != Poor().txid && Rich().txid != Rival().txid && Poor().txid != Rival().txid
    ensures Purse(0) != Purse(1)
    ensures Rate(Rich()) > Rate(Rival()) > Rate(Poor())
  {
    assert Purse(0).version == 0 && Purse(1).version == 1;
    assert Spender(0, 9_000).outs[0].value == 9_000 && Spender(1, 9_800).outs[0].value == 9_800
        && Spender(0, 9_500).outs[0].value == 9_500;
  }

  /** The pool that holds the first two. */
  ghost predicate Both(g: Dag) {
    && g.entries == map[Rich().txid := Rich(), Poor().txid := Poor()] && g.childs == map[]
    && g.spent == map[OutPoint(HashOf(Purse(0)), 0) := Rich().txid, OutPoint(HashOf(Purse(1)), 0) := Poor().txid]
  }

  lemma BothFacts(g: Dag)
    requires Both(g)
    ensures |g.entries| == 2 && LowestLeaf(g.entries, g.childs, Poor().txid)
    ensures Evictable(g, 2, Rival(), Poor().txid)
    ensures forall leaf :: Evictable(g, 2, Rival(), leaf) ==> leaf == Poor().txid
    ensures !FitsWithout(g, Poor().txid, Rival())
  {
    OffersDiffer();
    OfferInputs(0, 9_500);
    assert g.entries.Keys == {Rich().txid, Poor().txid} && |g.entries| == |g.entries.Keys|;
    assert OutPoint(HashOf(Purse(0)), 0) in Inputs(Rival().tx);
    hide Rate, Inputs, LiveParents, Depth, Purse, Spender, Offer;
  }

  lemma OffersAre()
    ensures Rich() == Offer(0, 9_000) && Poor() == Offer(1, 9_800) && Rival() == Offer(0, 9_500)
  {
    hide Offer;
  }

  lemma BothIs(g: Dag)
    requires g.entries == map[][Rich().txid := Rich()][Poor().txid := Poor()] && g.childs == map[]
    requires g.spent == map[][OutPoint(HashOf(Purse(0)), 0) := Rich().txid][OutPoint(HashOf(Purse(1)), 0) := Poor().txid]
    ensures Both(g)
  {
    hide Rich, Poor, Purse;
  }

  lemma OneEntry(m: map<TxId, Pooled>, id: TxId, e: Pooled)
    requires m == map[][id := e]
    ensures |m| == 1 && m.Keys == {id}
  {
  }

  /** A full pool refuses a conflicting newcomer and loses its cheapest leaf to it. */
  method EvictedForNothing() returns (pool: Pool, ok: bool, ghost before: Dag)
    ensures fresh(pool) && pool.Valid() && !ok
    ensures |before.entries| == pool.maxTx && pool.Graph() != before
    ensures Poor().txid in before.entries && pool.Graph() == Without(before, {Poor().txid})
  {
    hide *;
    OffersDiffer();
    OfferVetted(0, 9_000);
    OfferVetted(1, 9_800);
    OfferVetted(0, 9_500);
    OffersAre();
    pool := new Pool(FREE, ANY, 2, 1);
    ghost var room, evicted;
    ghost var g0 := pool.Graph();
    pool.Fields();
    NoRoomNeeded(g0, 2, Rich());
    ok, room, evicted := pool.Commit(Rich());
    InsertedOffer(g0, 0, 9_000);
    ghost var g1 := pool.Graph();
    OneEntry(g1.entries, Rich().txid, Rich());
    NotPurses(0, 9_000, 1);
    NoRoomNeeded(g1, 2, Poor());
    InsertedOffer(g1, 1, 9_800);
    ok, room, evicted := pool.Commit(Poor());
    before := pool.Graph();
    BothIs(before);
    BothFacts(before);
    NotEvictable(before, 2, Rival());
    ok, room, evicted := pool.Commit(Rival());
  }
}
