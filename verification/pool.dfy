/** The pool object: its maps, the operations that run under its lock, and orphan promotion. */
module TxPool {
  import opened Wire
  import opened ChainCfg
  import opened Ledger
  import opened PoolDag
  import opened Mempool

  // ----- Removing one childless entry -----

  /** `id` is taken off the child lists of `ps`; empty lists go. */
  function Unlinked(childs: map<TxId, set<TxId>>, ps: set<TxId>, id: TxId): map<TxId, set<TxId>> {
    map p | p in childs && (p in ps ==> childs[p] - {id} != {}) :: if p in ps then childs[p] - {id} else childs[p]
  }

  lemma UnlinkedNone(childs: map<TxId, set<TxId>>, id: TxId)
    ensures Unlinked(childs, {}, id) == childs
  {
  }

  lemma UnlinkStep(childs: map<TxId, set<TxId>>, ps: set<TxId>, p: TxId, id: TxId)
    requires p !in ps
    ensures var now := Unlinked(childs, ps, id);
      Unlinked(childs, ps + {p}, id)
        == if p !in now then now
           else if now[p] - {id} == {} then now - {p}
           else now[p := now[p] - {id}]
  {
  }

  lemma LeafRemoved(g: Dag, id: TxId)
    requires DagOk(g) && id in g.entries && id !in g.childs
    ensures id in g.parents
    ensures Without(g, {id}) == Dag(g.entries - {id}, g.spent - Inputs(g.entries[id].tx), g.parents - {id},
                                    Unlinked(g.childs, g.parents[id], id) - {id})
  {
    hide Inputs, Names, Depth;
    LeafChilds(g, id);
    LeafSpent(g, id);
    hide Unlinked, ChildsWithout, EdgesOk, SpentOk;
  }

  lemma LeafChilds(g: Dag, id: TxId)
    requires EdgesOk(g) && id in g.entries && id !in g.childs
    ensures id in g.parents && ChildsWithout(g.childs, {id}) == Unlinked(g.childs, g.parents[id], id) - {id}
  {
    hide Names;
    forall p | p in g.childs && p !in g.parents[id]
      ensures g.childs[p] - {id} == g.childs[p]
    {
      assert id !in g.childs[p];
    }
    hide EdgesOk;
  }

  lemma LeafSpent(g: Dag, id: TxId)
    requires SpentOk(g) && id in g.entries
    ensures Without(g, {id}).spent == g.spent - Inputs(g.entries[id].tx)
  {
    hide Inputs;
  }

  /** Removing a stranger removes nothing. */
  lemma StrangerRemoved(g: Dag, id: TxId)
    requires EdgesOk(g) && id !in g.entries
    ensures Without(g, DescSet(g, id)) == g
  {
    forall b | b in g.entries
      ensures !Descends(g.parents, id, b)
    {
      StrangerAlone(g, id, b);
    }
    assert DescSet(g, id) == {};
    WithoutNone(g);
    hide *;
  }

  /** Part of the way through the children of `id`. */
  ghost predicate Pruning(g0: Dag, id: TxId, roots: set<TxId>, g: Dag) {
    && DagOk(g0) && id in g0.entries
    && roots <= (if id in g0.childs then g0.childs[id] else {})
    && g == Without(g0, Doomed(g0, roots))
  }

  lemma PruneStart(g: Dag, id: TxId)
    requires DagOk(g) && id in g.entries
    ensures Pruning(g, id, {}, g)
  {
    DoomedNone(g);
    hide EdgesOk;
  }

  lemma PruningOk(g0: Dag, id: TxId, roots: set<TxId>, g: Dag)
    requires Pruning(g0, id, roots, g)
    ensures DagOk(g)
  {
    DoomedClosed(g0, roots);
    WithoutOk(g0, Doomed(g0, roots));
    hide *;
  }

  lemma PruneStep(g0: Dag, id: TxId, roots: set<TxId>, g: Dag, child: TxId)
    requires Pruning(g0, id, roots, g) && id in g0.childs && child in g0.childs[id]
    ensures Pruning(g0, id, roots + {child}, Without(g, DescSet(g, child)))
    ensures |DescSet(g, child)| < |DescSet(g0, id)|
  {
    DoomedNext(g0, roots, child);
    BelowOnly(g0, id, roots);
    ChildFewer(g0, id, Doomed(g0, roots), child);
    Fewer(DescSet(g, child), DescSet(g0, id));
    hide EdgesOk, SpentOk, KeysOk, DepthsOk, Doomed, DescSet, Without;
  }

  lemma BelowOnly(g: Dag, id: TxId, roots: set<TxId>)
    requires EdgesOk(g) && id in g.entries && roots <= (if id in g.childs then g.childs[id] else {})
    ensures id !in Doomed(g, roots) && Closed(g, Doomed(g, roots))
  {
    DoomedClosed(g, roots);
    DescSplit(g, id);
    hide EdgesOk, Descends, Closed;
  }

  lemma Fewer<T>(a: set<T>, b: set<T>)
    requires a < b
    ensures |a| < |b|
  {
    assert |b - a| > 0 && a + (b - a) == b;
  }

  /** Once all children are gone the entry itself is a leaf, and removing it completes the set. */
  lemma PruneLast(g0: Dag, id: TxId, below: set<TxId>, g: Dag)
    requires Pruning(g0, id, below, g) && below == if id in g0.childs then g0.childs[id] else {}
    ensures DagOk(g) && id in g.entries && id !in g.childs
    ensures Without(g, {id}) == Without(g0, DescSet(g0, id))
  {
    hide *;
    PruningOk(g0, id, below, g);
    PruningIs(g0, id, below, g);
    DescSplit(g0, id);
    WithoutTwice(g0, Doomed(g0, below), {id});
    LeafNow(g0, id, below, Doomed(g0, below));
  }

  lemma PruningIs(g0: Dag, id: TxId, roots: set<TxId>, g: Dag)
    requires Pruning(g0, id, roots, g)
    ensures g == Without(g0, Doomed(g0, roots)) && EdgesOk(g0) && id in g0.entries
  {
    hide EdgesOk;
  }

  lemma LeafNow(g: Dag, id: TxId, below: set<TxId>, gone: set<TxId>)
    requires EdgesOk(g) && id in g.entries && id !in gone && below == if id in g.childs then g.childs[id] else {}
    requires gone == Doomed(g, below)
    ensures id in Without(g, gone).entries && id !in Without(g, gone).childs
  {
    assert below <= g.entries.Keys by {
      hide Doomed, Names;
    }
    ChildrenDoomed(g, below);
    hide Doomed, EdgesOk;
  }

  lemma ChildrenDoomed(g: Dag, below: set<TxId>)
    requires EdgesOk(g) && below <= g.entries.Keys
    ensures below <= Doomed(g, below)
  {
    forall c | c in below
      ensures c in Doomed(g, below)
    {
      assert Descends(g.parents, c, c);
    }
    hide *;
  }

  // ----- The lock-held operations, on values -----

  ghost predicate OrphansOk(orphans: map<TxId, Tx>, refs: map<OutPoint, set<TxId>>) {
    && (forall id :: id in orphans ==> id == HashOf(orphans[id]))
    && (forall dep :: dep in refs ==> refs[dep] != {})
    && (forall dep, id :: dep in refs && id in refs[dep] ==> id in orphans && dep in Inputs(orphans[id]))
  }

  /** The waiting lists without `id`. */
  function Forgotten(refs: map<OutPoint, set<TxId>>, keys: set<OutPoint>, id: TxId): map<OutPoint, set<TxId>> {
    map k | k in refs && (k in keys ==> refs[k] - {id} != {}) :: if k in keys then refs[k] - {id} else refs[k]
  }

  lemma ForgottenStep(refs: map<OutPoint, set<TxId>>, ins: seq<TxIn>, i: nat, id: TxId)
    requires i < |ins|
    requires forall k :: k in refs ==> refs[k] != {}
    ensures var now, k := Forgotten(refs, InKeys(ins, i), id), ins[i].prev;
      Forgotten(refs, InKeys(ins, i + 1), id)
        == if k !in now then now else if now[k] - {id} == {} then now - {k} else now[k := now[k] - {id}]
  {
    InKeysStep(ins, i);
    ForgottenMore(refs, InKeys(ins, i), ins[i].prev, id);
    hide InKeys;
  }

  lemma ForgottenMore(refs: map<OutPoint, set<TxId>>, keys: set<OutPoint>, k: OutPoint, id: TxId)
    requires forall x :: x in refs ==> refs[x] != {}
    ensures var now := Forgotten(refs, keys, id);
      Forgotten(refs, keys + {k}, id)
        == if k !in now then now else if now[k] - {id} == {} then now - {k} else now[k := now[k] - {id}]
  {
    var now := Forgotten(refs, keys, id);
    if k in now && k in keys {
      assert now[k] - {id} == now[k];
    }
  }

  lemma OrphanForgotten(orphans: map<TxId, Tx>, refs: map<OutPoint, set<TxId>>, id: TxId)
    requires OrphansOk(orphans, refs) && id in orphans
    ensures OrphansOk(orphans - {id}, Forgotten(refs, Inputs(orphans[id]), id))
  {
    hide Inputs;
  }

  lemma OrphanFiled(orphans: map<TxId, Tx>, refs: map<OutPoint, set<TxId>>, tx: Tx, deps: set<OutPoint>)
    requires OrphansOk(orphans, refs) && HashOf(tx) !in orphans && deps <= Inputs(tx)
    ensures OrphansOk(orphans[HashOf(tx) := tx], Waits(refs, deps, HashOf(tx)))
  {
    hide Inputs;
  }

  /** `id` joins the waiting list of each of `deps`. */
  function Waits(refs: map<OutPoint, set<TxId>>, deps: set<OutPoint>, id: TxId): map<OutPoint, set<TxId>> {
    map k | k in refs.Keys + deps :: (if k in refs then refs[k] else {}) + (if k in deps then {id} else {})
  }

  lemma WaitsStep(refs: map<OutPoint, set<TxId>>, deps: set<OutPoint>, k: OutPoint, id: TxId)
    ensures var now := Waits(refs, deps, id);
      Waits(refs, deps + {k}, id) == now[k := (if k in now then now[k] else {}) + {id}]
  {
    var now, more := Waits(refs, deps, id), Waits(refs, deps + {k}, id);
    var want := now[k := (if k in now then now[k] else {}) + {id}];
    forall x | x in more
      ensures more[x] == want[x]
    {
      assert x == k && k !in now ==> more[x] == {id};
    }
    assert more.Keys == want.Keys;
  }

  function DepsOf(missing: seq<OutPoint>, n: nat): set<OutPoint>
    requires n <= |missing|
  {
    set i | 0 <= i < n :: missing[i]
  }

  lemma DepsNone(missing: seq<OutPoint>)
    ensures DepsOf(missing, 0) == {}
  {
  }

  lemma DepsStep(missing: seq<OutPoint>, i: nat)
    requires i < |missing|
    ensures DepsOf(missing, i + 1) == DepsOf(missing, i) + {missing[i]}
  {
  }

  lemma DepsAll(missing: seq<OutPoint>, keys: set<OutPoint>)
    requires forall k :: k in missing ==> k in keys
    ensures DepsOf(missing, |missing|) <= keys && forall k :: k in missing ==> k in DepsOf(missing, |missing|)
  {
  }

  lemma WaitsAt(refs: map<OutPoint, set<TxId>>, deps: set<OutPoint>, id: TxId)
    ensures forall k :: k in deps ==> k in Waits(refs, deps, id) && id in Waits(refs, deps, id)[k]
  {
  }

  lemma WaitsNone(refs: map<OutPoint, set<TxId>>, id: TxId)
    ensures Waits(refs, {}, id) == refs
  {
    forall k | k in refs
      ensures refs[k] + {} == refs[k]
    {
    }
    assert Waits(refs, {}, id).Keys == refs.Keys;
  }

  lemma MarkedStep(spent: map<OutPoint, TxId>, ins: seq<TxIn>, i: nat, id: TxId)
    requires i < |ins|
    ensures Marked(spent, InKeys(ins, i + 1), id) == Marked(spent, InKeys(ins, i), id)[ins[i].prev := id]
  {
    InKeysStep(ins, i);
    hide InKeys;
  }

  lemma LiveStep(entries: map<TxId, Pooled>, ins: seq<TxIn>, i: nat)
    requires i < |ins|
    ensures var p := ins[i].prev.hash;
      LiveParents(entries, ins, i + 1) == LiveParents(entries, ins, i) + if p in entries then {p} else {}
  {
  }

  lemma AdoptStep(childs: map<TxId, set<TxId>>, ps: set<TxId>, p: TxId, id: TxId)
    ensures var now := Adopt(childs, ps, id);
      Adopt(childs, ps + {p}, id) == now[p := (if p in now then now[p] else {}) + {id}]
  {
    var now, more := Adopt(childs, ps, id), Adopt(childs, ps + {p}, id);
    var want := now[p := (if p in now then now[p] else {}) + {id}];
    forall x | x in more
      ensures more[x] == want[x]
    {
      assert x == p && p !in now ==> more[x] == {id};
    }
    assert more.Keys == want.Keys;
  }

  /** A pool that loses entries or gains a vetted one stays vetted. */
  lemma VettedKept(rules: TxRules, policy: Policy, entries: map<TxId, Pooled>, gone: set<TxId>)
    requires AllVetted(rules, policy, entries)
    ensures AllVetted(rules, policy, entries - gone) && |entries - gone| <= |entries|
  {
    var kept := entries - gone;
    assert kept.Keys <= entries.Keys;
    SubsetSize(kept.Keys, entries.Keys);
    hide Vetted;
  }

  lemma SubsetSize<T>(a: set<T>, b: set<T>)
    requires a <= b
    ensures |a| <= |b|
  {
    assert a + (b - a) == b;
  }

  lemma InsertStart(g: Dag, e: Pooled)
    ensures Marked(g.spent, InKeys(e.tx.ins, 0), e.txid) == g.spent
    ensures LiveParents(g.entries, e.tx.ins, 0) == {}
    ensures Adopt(g.childs, LiveParents(g.entries, e.tx.ins, 0), e.txid) == g.childs
  {
    forall p | p in g.childs
      ensures g.childs[p] + {} == g.childs[p]
    {
    }
    assert Adopt(g.childs, {}, e.txid).Keys == g.childs.Keys;
    assert InKeys(e.tx.ins, 0) == {};
  }

  /** Part of the way through the inputs of a newcomer. */
  ghost predicate Inserting(g0: Dag, e: Pooled, i: nat, spent: map<OutPoint, TxId>, parents: map<TxId, set<TxId>>, childs: map<TxId, set<TxId>>) {
    && i <= |e.tx.ins|
    && var ps := LiveParents(g0.entries, e.tx.ins, i);
    && spent == Marked(g0.spent, InKeys(e.tx.ins, i), e.txid)
    && parents == g0.parents[e.txid := ps]
    && childs == Adopt(g0.childs, ps, e.txid)
  }

  lemma InsertNext(g0: Dag, e: Pooled, i: nat, spent: map<OutPoint, TxId>, parents: map<TxId, set<TxId>>, childs: map<TxId, set<TxId>>)
    requires i < |e.tx.ins| && Inserting(g0, e, i, spent, parents, childs) && e.txid == HashOf(e.tx)
    ensures var (key, p) := (e.tx.ins[i].prev, e.tx.ins[i].prev.hash);
      && p != e.txid && e.txid in parents
      && if p in g0.entries
         then Inserting(g0, e, i + 1, spent[key := e.txid], parents[e.txid := parents[e.txid] + {p}],
                        childs[p := (if p in childs then childs[p] else {}) + {e.txid}])
         else Inserting(g0, e, i + 1, spent[key := e.txid], parents, childs)
  {
    var p := e.tx.ins[i].prev.hash;
    MarkedStep(g0.spent, e.tx.ins, i, e.txid);
    LiveStep(g0.entries, e.tx.ins, i);
    AdoptStep(g0.childs, LiveParents(g0.entries, e.tx.ins, i), p, e.txid);
    NotItself(e, i);
    hide Marked, LiveParents, Adopt, InKeys;
    var ps := LiveParents(g0.entries, e.tx.ins, i);
    assert ps + {} == ps;
    assert g0.parents[e.txid := ps][e.txid := ps + {p}] == g0.parents[e.txid := ps + {p}];
  }

  lemma NotItself(e: Pooled, i: nat)
    requires i < |e.tx.ins| && e.txid == HashOf(e.tx)
    ensures e.tx.ins[i].prev.hash != e.txid
  {
    assert Names(e.txid, e.tx.ins[i].prev.hash);
    NamesLower(e.txid, e.tx.ins[i].prev.hash);
  }

  lemma InsertEnd(g0: Dag, e: Pooled, spent: map<OutPoint, TxId>, parents: map<TxId, set<TxId>>, childs: map<TxId, set<TxId>>)
    requires Inserting(g0, e, |e.tx.ins|, spent, parents, childs)
    ensures Dag(g0.entries[e.txid := e], spent, parents, childs) == Inserted(g0, e)
  {
    hide Marked, LiveParents, Adopt, InKeys;
  }

  /** Recorded depths in the memo are right. */
  ghost predicate DepthsKnown(parents: map<TxId, set<TxId>>, memo: map<TxId, nat>) {
    forall id :: id in memo ==> memo[id] == Depth(parents, id)
  }

  /** The deepest of `ps`, plus one. */
  ghost predicate DeepestOf(parents: map<TxId, set<TxId>>, ps: set<TxId>, d: nat) {
    && (forall p :: p in ps ==> 1 + Depth(parents, p) <= d)
    && (d > 0 ==> exists p :: p in ps && d == 1 + Depth(parents, p))
  }

  lemma DeepestIsDepth(g: Dag, id: TxId, d: nat)
    requires EdgesOk(g) && id in g.parents && DeepestOf(g.parents, g.parents[id], d)
    ensures Depth(g.parents, id) == d
  {
    assert forall p :: p in g.parents[id] ==> Names(id, p);
    hide EdgesOk, Names, Depth;
    DepthIs(g.parents, id, d);
  }

  lemma ParentOfEntry(g: Dag, id: TxId, p: TxId)
    requires EdgesOk(g) && id in g.entries && p in g.parents[id]
    ensures p in g.entries && Rank(p) < Rank(id)
  {
    NamesLower(id, p);
    hide Names;
  }

  lemma EntryKeys(g: Dag)
    requires EdgesOk(g)
    ensures g.parents.Keys == g.entries.Keys
  {
  }

  /** What validation reads of the chain. */
  datatype ChainView = ChainView(utxo: UtxoSet, nextHeight: int, time: uint32)

  /** What the transaction pays, by what its inputs find. */
  ghost function FeeFound(view: ChainView, g: Dag, tx: Tx): int {
    FoundIn(Undisturbed(tx, Glimpse(g.spent, view.utxo, g.entries)), tx, |tx.ins|, view.nextHeight) - SumOut(tx.outs, |tx.outs|)
  }

  /** Undisturbed validation on the pool `g` accepts the transaction. */
  ghost predicate Admits(rules: TxRules, policy: Policy, view: ChainView, g: Dag, tx: Tx) {
    var gs := Undisturbed(tx, Glimpse(g.spent, view.utxo, g.entries));
    && Passes(rules, policy, gs, tx, view.nextHeight, view.time)
    && MissingKeys(gs, tx, |tx.ins|, view.nextHeight) == []
    && 0 <= FeeFound(view, g, tx) <= MAX_MONEY as int
    && 0 < policy.size(tx) <= MAX_STANDARD_TX_SIZE && policy.standard(tx)
    && MeetsMinRelayFee(FeeFound(view, g, tx) as int64, policy.size(tx))
  }

  ghost function EntryFor(rules: TxRules, policy: Policy, view: ChainView, g: Dag, tx: Tx): Pooled
    requires Admits(rules, policy, view, g, tx)
  {
    Pooled(tx, HashOf(tx), FeeFound(view, g, tx) as int64, policy.size(tx))
  }

  /** How an attempt to add `tx` to the pool `g` ends; while there is room, this decides it. */
  ghost predicate Outcome(rules: TxRules, policy: Policy, maxTx: nat, view: ChainView, g: Dag, tx: Tx, ok: bool) {
    && (ok ==> Admits(rules, policy, view, g, tx))
    && (|g.entries| < maxTx ==>
          (ok <==> Admits(rules, policy, view, g, tx) && Insertable(g, EntryFor(rules, policy, view, g, tx))))
  }

  /** An orphan waits for some output of `parent`. */
  ghost predicate WaitsOn(refs: map<OutPoint, set<TxId>>, parent: TxId, id: TxId) {
    exists dep :: dep in refs && dep.hash == parent && id in refs[dep]
  }

  lemma WaitsKept(refs: map<OutPoint, set<TxId>>, keys: set<OutPoint>, gone: TxId)
    ensures forall parent, id :: WaitsOn(refs, parent, id) && id != gone ==> WaitsOn(Forgotten(refs, keys, gone), parent, id)
    ensures forall parent, id :: WaitsOn(Forgotten(refs, keys, gone), parent, id) ==> WaitsOn(refs, parent, id)
  {
    forall parent, id | WaitsOn(refs, parent, id) && id != gone
      ensures WaitsOn(Forgotten(refs, keys, gone), parent, id)
    {
      var dep :| dep in refs && dep.hash == parent && id in refs[dep];
      assert id in refs[dep] - {gone};
      assert dep in Forgotten(refs, keys, gone) && id in Forgotten(refs, keys, gone)[dep];
    }
  }

  /** What is known of a promotion under way: what was tried, on which pool, and what came of it. */
  ghost predicate Promoting(rules: TxRules, policy: Policy, maxTx: nat, view: ChainView, orphans: map<TxId, Tx>,
                            tried: map<TxId, Dag>, accepted: set<TxId>)
  {
    && accepted <= tried.Keys && accepted !! orphans.Keys
    && (forall id :: id in tried ==> id.HashOf? && Outcome(rules, policy, maxTx, view, tried[id], id.tx, id in accepted))
    && (forall id :: id in tried && id in orphans ==> id.HashOf? && !Admits(rules, policy, view, tried[id], id.tx))
  }

  lemma PromotingNone(rules: TxRules, policy: Policy, maxTx: nat, view: ChainView, orphans: map<TxId, Tx>)
    ensures Promoting(rules, policy, maxTx, view, orphans, map[], {})
  {
  }

  lemma PromotingNext(rules: TxRules, policy: Policy, maxTx: nat, view: ChainView, orphans: map<TxId, Tx>,
                      tried: map<TxId, Dag>, accepted: set<TxId>, id: TxId, g: Dag, ok: bool, left: map<TxId, Tx>)
    requires Promoting(rules, policy, maxTx, view, orphans, tried, accepted) && left.Keys <= orphans.Keys
    requires id.HashOf? && id !in tried && Outcome(rules, policy, maxTx, view, g, id.tx, ok)
    requires ok ==> id !in left
    requires id in left ==> !Admits(rules, policy, view, g, id.tx)
    ensures Promoting(rules, policy, maxTx, view, left, tried[id := g], if ok then accepted + {id} else accepted)
  {
    hide Outcome, Admits;
  }

  lemma PromotingLeft(rules: TxRules, policy: Policy, maxTx: nat, view: ChainView, orphans: map<TxId, Tx>,
                      tried: map<TxId, Dag>, accepted: set<TxId>)
    requires Promoting(rules, policy, maxTx, view, orphans, tried, accepted)
    ensures forall id :: id in tried && id in orphans ==> id.HashOf? && !Admits(rules, policy, view, tried[id], id.tx)
  {
    hide Outcome, Admits;
  }

  lemma PromotingOn(rules: TxRules, policy: Policy, maxTx: nat, view: ChainView, orphans: map<TxId, Tx>,
                    tried: map<TxId, Dag>, accepted: set<TxId>, left: map<TxId, Tx>)
    requires Promoting(rules, policy, maxTx, view, orphans, tried, accepted) && left.Keys <= orphans.Keys
    ensures Promoting(rules, policy, maxTx, view, left, tried, accepted)
  {
    hide Outcome, Admits;
  }

  class Pool {
    const rules: TxRules
    const policy: Policy
    const maxTx: nat
    const maxOrph: nat
    var entries: map<TxId, Pooled>
    var spent: map<OutPoint, TxId>
    var parents: map<TxId, set<TxId>>
    var childs: map<TxId, set<TxId>>
    var orphans: map<TxId, Tx>
    var orphRef: map<OutPoint, set<TxId>>

    ghost function Graph(): Dag
      reads `entries, `spent, `parents, `childs
    {
      Dag(entries, spent, parents, childs)
    }

    ghost predicate GraphOk()
      reads `entries, `spent, `parents, `childs
    {
      DagOk(Graph()) && AllVetted(rules, policy, entries)
    }

    ghost predicate WaitingOk()
      reads `orphans, `orphRef
    {
      OrphansOk(orphans, orphRef) && |orphans| <= maxOrph && maxOrph > 0
    }

    ghost predicate Valid()
      reads this
    {
      GraphOk() && |entries| <= maxTx && WaitingOk()
    }

    constructor (rules: TxRules, policy: Policy, maxTx: nat, maxOrph: nat)
      requires maxOrph > 0
      ensures Valid() && entries == map[] && spent == map[] && parents == map[] && childs == map[] && orphans == map[] && orphRef == map[]
      ensures this.rules == rules && this.policy == policy && this.maxTx == maxTx && this.maxOrph == maxOrph
    {
      this.rules, this.policy, this.maxTx, this.maxOrph := rules, policy, maxTx, maxOrph;
      entries, spent, parents, childs, orphans, orphRef := map[], map[], map[], map[], map[], map[];
    }

    // ----- Removal -----

    method UnlinkFromParents(id: TxId)
      requires id in parents
      modifies `childs
      ensures childs == Unlinked(old(childs), parents[id], id)
    {
      var todo := parents[id];
      ghost var before, ps := childs, parents[id];
      UnlinkedNone(childs, id);
      hide *;
      assert ps - todo == {};
      while todo != {}
        invariant todo <= ps && childs == Unlinked(before, ps - todo, id)
        decreases todo
      {
        var parent :| parent in todo;
        UnlinkStep(before, ps - todo, parent, id);
        assert ps - todo + {parent} == ps - (todo - {parent});
        todo := todo - {parent};
        if parent in childs {
          if childs[parent] - {id} == {} {
            childs := childs - {parent};
          } else {
            childs := childs[parent := childs[parent] - {id}];
          }
        }
      }
      assert ps - todo == ps;
    }

    method UnmarkInputs(tx: Tx)
      modifies `spent
      ensures spent == old(spent) - Inputs(tx)
    {
      ghost var before := spent;
      assert spent - InKeys(tx.ins, 0) == spent;
      for i := 0 to |tx.ins|
        invariant spent == before - InKeys(tx.ins, i)
      {
        InKeysStep(tx.ins, i);
        hide InKeys;
        spent := spent - {tx.ins[i].prev};
      }
    }

    /** Removes an entry that has no children. */
    method RemoveLeaf(txid: TxId)
      requires DagOk(Graph()) && txid in entries && txid !in childs
      modifies `entries, `spent, `parents, `childs
      ensures Graph() == Without(old(Graph()), {txid})
    {
      hide *;
      GraphParts();
      LeafRemoved(Graph(), txid);
      ghost var before := Graph();
      var entry := entries[txid];
      UnlinkFromParents(txid);
      parents := parents - {txid};
      childs := childs - {txid};
      UnmarkInputs(entry.tx);
      entries := entries - {txid};
      GraphIs(before.entries - {txid}, before.spent - Inputs(entry.tx), before.parents - {txid},
              Unlinked(before.childs, before.parents[txid], txid) - {txid});
    }

    lemma GraphIs(es: map<TxId, Pooled>, sp: map<OutPoint, TxId>, ps: map<TxId, set<TxId>>, cs: map<TxId, set<TxId>>)
      requires entries == es && spent == sp && parents == ps && childs == cs
      ensures Graph() == Dag(es, sp, ps, cs)
    {
    }

    /** Removes an entry with everything that depends on it, and nothing else. */
    method RemoveEntry(txid: TxId)
      requires DagOk(Graph())
      modifies `entries, `spent, `parents, `childs
      ensures DagOk(Graph()) && Graph() == Without(old(Graph()), DescSet(old(Graph()), txid))
      decreases |DescSet(Graph(), txid)|
    {
      hide *;
      ghost var g0 := Graph();
      GraphParts();
      if txid !in entries {
        StrangerRemoved(g0, txid);
        return;
      }
      PruneStart(g0, txid);
      var todo := if txid in childs then childs[txid] else {};
      ghost var below := todo;
      assert below - todo == {};
      while todo != {}
        invariant todo <= below && Pruning(g0, txid, below - todo, Graph())
        decreases todo
      {
        var child :| child in todo;
        PruneStep(g0, txid, below - todo, Graph(), child);
        PruningOk(g0, txid, below - todo, Graph());
        assert below - todo + {child} == below - (todo - {child});
        todo := todo - {child};
        RemoveEntry(child);
      }
      assert below - todo == below;
      PruneLast(g0, txid, below, Graph());
      GraphParts();
      RemoveLeaf(txid);
      DescRemovalOk(g0, txid);
    }

    lemma GraphParts()
      requires DagOk(Graph())
      ensures Graph().entries == entries && Graph().childs == childs && Graph().parents == parents && Graph().spent == spent
      ensures EdgesOk(Graph())
    {
      hide EdgesOk;
    }

    // ----- Ancestor depth -----

    method AncestorDepth(txid: TxId, memo: map<TxId, nat>) returns (d: nat, known: map<TxId, nat>)
      requires EdgesOk(Graph()) && txid in entries && DepthsKnown(parents, memo)
      ensures d == Depth(parents, txid) && DepthsKnown(parents, known)
      decreases Rank(txid)
    {
      hide *;
      known := memo;
      if txid in memo {
        KnownDepth(parents, memo, txid);
        return memo[txid], memo;
      }
      EdgeParts();
      var maxParentDepth: nat := 0;
      var todo := parents[txid];
      ghost var ps := todo;
      DeepestNone(parents);
      assert ps - todo == {};
      while todo != {}
        invariant todo <= ps && DepthsKnown(parents, known) && DeepestOf(parents, ps - todo, maxParentDepth)
        decreases todo
      {
        var parent :| parent in todo;
        ParentOfEntry(Graph(), txid, parent);
        var above;
        above, known := AncestorDepth(parent, known);
        DeepestStep(parents, ps - todo, maxParentDepth, parent);
        assert ps - todo + {parent} == ps - (todo - {parent});
        todo := todo - {parent};
        if 1 + above > maxParentDepth {
          maxParentDepth := 1 + above;
        }
      }
      assert ps - todo == ps;
      DeepestIsDepth(Graph(), txid, maxParentDepth);
      KnowMore(parents, known, txid);
      d, known := maxParentDepth, known[txid := maxParentDepth];
    }

    lemma EdgeParts()
      requires EdgesOk(Graph())
      ensures Graph().entries == entries && Graph().parents == parents && parents.Keys == entries.Keys
    {
    }

    /** May a transaction join without any chain of ancestors above it getting too long? */
    method CheckAncestorDepth(tx: Tx) returns (ok: bool)
      requires EdgesOk(Graph())
      ensures ok <==> forall p :: p in LiveParents(entries, tx.ins, |tx.ins|) ==> 1 + Depth(parents, p) <= 25
    {
      var maxDepth: nat, memo: map<TxId, nat> := 0, map[];
      hide EdgesOk, Depth;
      for i := 0 to |tx.ins|
        invariant DepthsKnown(parents, memo) && maxDepth <= MAX_ANCESTOR_DEPTH
        invariant forall p :: p in LiveParents(entries, tx.ins, i) ==> 1 + Depth(parents, p) <= MAX_ANCESTOR_DEPTH
      {
        var p := tx.ins[i].prev.hash;
        LiveStep(entries, tx.ins, i);
        if p !in entries {
          continue;
        }
        var above;
        above, memo := AncestorDepth(p, memo);
        if 1 + above > maxDepth {
          maxDepth := 1 + above;
        }
        if maxDepth > MAX_ANCESTOR_DEPTH {
          assert p in LiveParents(entries, tx.ins, |tx.ins|);
          return false;
        }
      }
      ok := true;
    }

    // ----- Commit -----

    method Insert(e: Pooled)
      requires GraphOk() && Insertable(Graph(), e) && Vetted(rules, policy, e)
      modifies `entries, `spent, `parents, `childs
      ensures GraphOk() && Graph() == Inserted(old(Graph()), e)
    {
      hide *;
      ghost var g0 := Graph();
      InsertedParts(e);
      InsertStart(g0, e);
      parents := parents[e.txid := {}];
      entries := entries[e.txid := e];
      InsertingStart(g0, e, spent, parents, childs);
      var ins := e.tx.ins;
      for i := 0 to |ins|
        invariant entries == g0.entries[e.txid := e] && Inserting(g0, e, i, spent, parents, childs)
      {
        InsertNext(g0, e, i, spent, parents, childs);
        var key, p := ins[i].prev, ins[i].prev.hash;
        spent := spent[key := e.txid];
        if p in entries {
          parents := parents[e.txid := parents[e.txid] + {p}];
          childs := childs[p := (if p in childs then childs[p] else {}) + {e.txid}];
        }
      }
      InsertEnd(g0, e, spent, parents, childs);
      GraphIs(g0.entries[e.txid := e], spent, parents, childs);
      ReadyAgain(g0, e);
    }

    lemma InsertedParts(e: Pooled)
      requires GraphOk() && Insertable(Graph(), e) && Vetted(rules, policy, e)
      ensures Graph().entries == entries && Graph().spent == spent && Graph().parents == parents && Graph().childs == childs
      ensures e.txid == HashOf(e.tx) && e.txid !in entries && e.txid !in parents
      ensures DagOk(Inserted(Graph(), e)) && AllVetted(rules, policy, Inserted(Graph(), e).entries)
    {
      InsertedOk(Graph(), e);
      VettedMore(rules, policy, entries, e);
      EntryKeys(Graph());
      hide DagOk, Vetted, AllVetted, LiveParents, Adopt, Marked, Depth, Inputs;
    }

    lemma ReadyAgain(g0: Dag, e: Pooled)
      requires Graph() == Inserted(g0, e) && DagOk(Inserted(g0, e)) && AllVetted(rules, policy, Inserted(g0, e).entries)
      ensures GraphOk()
    {
      hide DagOk, AllVetted, Inserted;
    }

    /** Makes room for `e` by evicting a leaf that pays less, if the pool is full. */
    method MakeRoom(e: Pooled) returns (ok: bool)
      requires GraphOk() && |entries| <= maxTx
      modifies `entries, `spent, `parents, `childs
      ensures GraphOk() && |entries| <= old(|entries|)
      ensures ok <==> !Full(old(Graph()), maxTx, e)
      ensures if ok then MadeRoom(old(Graph()), maxTx, e, Graph()) && |entries| < maxTx else Graph() == old(Graph())
    {
      hide *;
      RoomParts(e);
      if |entries| < maxTx {
        return true;
      }
      var low := LowestEvictionCandidate(entries, childs);
      LowIsLeaf(e, low);
      if low.None? || FeeRatePerKB(e.fee, e.size) <= low.value.1 {
        return false;
      }
      ghost var g0 := Graph();
      RemoveEntry(low.value.0);
      Evicted(g0, e, low.value.0);
      ok := true;
    }

    lemma RoomParts(e: Pooled)
      requires GraphOk()
      ensures DagOk(Graph()) && Graph().entries == entries && Graph().childs == childs && AllVetted(rules, policy, entries)
      ensures |entries| < maxTx ==> !Full(Graph(), maxTx, e) && MadeRoom(Graph(), maxTx, e, Graph())
    {
      hide DagOk, AllVetted, LowestLeaf, Rate;
    }

    lemma LowIsLeaf(e: Pooled, low: Option<(TxId, int)>)
      requires GraphOk() && |entries| >= maxTx
      requires low.None? <==> entries == map[]
      requires low.Some? ==> low.value.0 in entries && low.value.1 == Rate(entries[low.value.0])
      requires low.Some? && (exists id :: IsLeaf(entries, childs, id)) ==> LowestLeaf(entries, childs, low.value.0)
      ensures low.Some? ==> LowestLeaf(entries, childs, low.value.0)
      ensures low.None? || FeeRatePerKB(e.fee, e.size) <= low.value.1 <==> Full(Graph(), maxTx, e)
      ensures Rate(e) == FeeRatePerKB(e.fee, e.size)
    {
      GraphParts();
      if low.Some? {
        EvictionFindsLeaf(Graph());
      }
      hide DagOk, AllVetted, EdgesOk, FeeRatePerKB;
    }

    lemma Evicted(g0: Dag, e: Pooled, leaf: TxId)
      requires DagOk(g0) && AllVetted(rules, policy, g0.entries) && LowestLeaf(g0.entries, g0.childs, leaf)
      requires |g0.entries| >= maxTx && Rate(e) > Rate(g0.entries[leaf])
      requires Graph() == Without(g0, DescSet(g0, leaf)) && DagOk(Graph())
      ensures GraphOk() && MadeRoom(g0, maxTx, e, Graph()) && |entries| < |g0.entries|
    {
      LeafAlone(g0, leaf);
      RemoveOne(g0.entries, leaf);
      VettedKept(rules, policy, g0.entries, {leaf});
      hide DagOk, AllVetted, LowestLeaf, DescSet, Rate;
    }

    /** The live spenders of a transaction's inputs. */
    method Conflicts(tx: Tx) returns (owners: set<TxId>)
      ensures owners == {} <==> Inputs(tx) !! spent.Keys
    {
      owners := {};
      for i := 0 to |tx.ins|
        invariant owners == {} <==> InKeys(tx.ins, i) !! spent.Keys
      {
        InKeysStep(tx.ins, i);
        hide InKeys;
        var key := tx.ins[i].prev;
        if key in spent {
          owners := owners + {spent[key]};
          assert spent[key] in owners;
        }
      }
    }

    /** The part of Add that runs under the lock.  It asks nothing of `e` but what validation
      established for good, so whatever other operations ran in between, the pool stays valid.  It
      may refuse `e` and still have given up a leaf for it: exactly when a leaf went and, by the
      pool as it was, `e` does not fit without that leaf. */
    method Commit(e: Pooled) returns (ok: bool, ghost room: Dag, ghost evicted: Option<TxId>)
      requires Valid() && Vetted(rules, policy, e)
      modifies this
      ensures Valid() && orphans == old(orphans) - {e.txid}
      ensures forall parent, id :: WaitsOn(old(orphRef), parent, id) && id != e.txid ==> WaitsOn(orphRef, parent, id)
      ensures forall parent, id :: WaitsOn(orphRef, parent, id) ==> WaitsOn(old(orphRef), parent, id)
      ensures Full(old(Graph()), maxTx, e) ==> !ok && Graph() == old(Graph()) && evicted.None?
      ensures !Full(old(Graph()), maxTx, e) ==>
        && MadeRoom(old(Graph()), maxTx, e, room)
        && (ok <==> Insertable(room, e))
        && Graph() == (if ok then Inserted(room, e) else room)
      ensures if evicted.Some? then Evictable(old(Graph()), maxTx, e, evicted.value) && room == Without(old(Graph()), {evicted.value})
              else forall leaf :: !Evictable(old(Graph()), maxTx, e, leaf)
      ensures !ok && Graph() != old(Graph()) <==> evicted.Some? && !FitsWithout(old(Graph()), evicted.value, e)
      ensures !ok && Graph() != old(Graph()) <==>
        |old(entries)| == maxTx && !Full(old(Graph()), maxTx, e) && !Insertable(room, e)
    {
      hide *;
      ValidParts();
      VettedId(rules, policy, e);
      WaitsKept(orphRef, if e.txid in orphans then Inputs(orphans[e.txid]) else {}, e.txid);
      DeleteOrphan(e.txid);
      ghost var g := Graph();
      RoomParts(e);
      NotEvictable(g, maxTx, e);
      Fields();
      ok := MakeRoom(e);
      room, evicted := Graph(), None;
      if !ok {
        Whole();
        return;
      }
      evicted := RoomIs(g, maxTx, e, room);
      ok := CommitInto(e);
    }

    method CommitInto(e: Pooled) returns (ok: bool)
      requires GraphOk() && |entries| < maxTx && WaitingOk() && Vetted(rules, policy, e)
      modifies `entries, `spent, `parents, `childs
      ensures Valid()
      ensures ok <==> Insertable(old(Graph()), e)
      ensures Graph() == if ok then Inserted(old(Graph()), e) else old(Graph())
    {
      hide *;
      InsertableIs(e);
      Whole();
      if e.txid in entries {
        return false;
      }
      var conflictSet := Conflicts(e.tx);
      if |conflictSet| > 0 {
        return false;
      }
      ok := CheckAncestorDepth(e.tx);
      if !ok {
        return;
      }
      ghost var before := entries;
      Insert(e);
      Fields();
      InsertedSize(before, e);
      Whole();
    }

    lemma Fields()
      ensures Graph().entries == entries && Graph().spent == spent && Graph().parents == parents && Graph().childs == childs
    {
    }

    lemma InsertedSize(before: map<TxId, Pooled>, e: Pooled)
      requires |before| < maxTx && entries == before[e.txid := e]
      ensures |entries| <= maxTx
    {
      if e.txid !in before {
        assert entries.Keys == before.Keys + {e.txid};
        assert |entries.Keys| == |before.Keys| + 1;
      } else {
        assert entries.Keys == before.Keys;
      }
      assert |entries| == |entries.Keys| && |before| == |before.Keys|;
    }

    lemma InsertableIs(e: Pooled)
      requires GraphOk() && Vetted(rules, policy, e)
      ensures EdgesOk(Graph())
      ensures Insertable(Graph(), e) <==>
        && e.txid !in entries && Inputs(e.tx) !! spent.Keys
        && forall p :: p in LiveParents(entries, e.tx.ins, |e.tx.ins|) ==> 1 + Depth(parents, p) <= 25
      ensures Inserted(Graph(), e).entries == entries[e.txid := e]
    {
      hide AllVetted, EdgesOk, SpentOk, DepthsOk, KeysOk, Sound, LiveParents, Depth, Inputs;
    }

    lemma ValidParts()
      requires Valid()
      ensures GraphOk() && |entries| <= maxTx && WaitingOk()
    {
    }

    lemma Whole()
      ensures GraphOk() && |entries| <= maxTx && WaitingOk() ==> Valid()
    {
    }

    // ----- Orphans -----

    method DeleteOrphan(txid: TxId)
      requires WaitingOk()
      modifies `orphans, `orphRef
      ensures WaitingOk() && orphans == old(orphans) - {txid}
      ensures orphRef == if txid in old(orphans) then Forgotten(old(orphRef), Inputs(old(orphans)[txid]), txid) else old(orphRef)
    {
      hide *;
      if txid !in orphans {
        DropNothing(orphans, txid);
        return;
      }
      ghost var before, refs := orphans, orphRef;
      OrphanParts(txid);
      var tx := orphans[txid];
      orphans := orphans - {txid};
      ForgottenNone(refs, tx, txid);
      for i := 0 to |tx.ins|
        invariant orphans == before - {txid} && orphRef == Forgotten(refs, InKeys(tx.ins, i), txid)
      {
        ForgottenStep(refs, tx.ins, i, txid);
        var key := tx.ins[i].prev;
        if key in orphRef {
          if orphRef[key] - {txid} == {} {
            orphRef := orphRef - {key};
          } else {
            orphRef := orphRef[key := orphRef[key] - {txid}];
          }
        }
      }
      InputsAre(tx);
      OrphanGone(before, txid, refs);
    }

    lemma OrphanParts(txid: TxId)
      requires WaitingOk() && txid in orphans
      ensures OrphansOk(orphans, orphRef) && |orphans| <= maxOrph && maxOrph > 0
      ensures forall k :: k in orphRef ==> orphRef[k] != {}
    {
    }

    lemma OrphanGone(before: map<TxId, Tx>, txid: TxId, refs: map<OutPoint, set<TxId>>)
      requires OrphansOk(before, refs) && txid in before && |before| <= maxOrph && maxOrph > 0
      requires orphans == before - {txid} && orphRef == Forgotten(refs, InKeys(before[txid].ins, |before[txid].ins|), txid)
      ensures WaitingOk()
    {
      OrphanForgotten(before, refs, txid);
      assert Inputs(before[txid]) == InKeys(before[txid].ins, |before[txid].ins|);
      hide OrphansOk, Forgotten, InKeys;
      SubsetSize(orphans.Keys, before.Keys);
    }

    /** Files an orphan under the outputs it waits for, dropping another when the pool is full. */
    method AddOrphan(tx: Tx, missing: seq<OutPoint>)
      requires WaitingOk() && forall k :: k in missing ==> k in Inputs(tx)
      modifies `orphans, `orphRef
      ensures WaitingOk() && HashOf(tx) in orphans
      ensures HashOf(tx) in old(orphans) ==> orphans == old(orphans) && orphRef == old(orphRef)
      ensures HashOf(tx) !in old(orphans) ==>
        && (forall k :: k in missing ==> k in orphRef && HashOf(tx) in orphRef[k])
        && (|old(orphans)| < maxOrph ==> orphans == old(orphans)[HashOf(tx) := tx])
        && (|old(orphans)| >= maxOrph ==> exists id :: id in old(orphans) && orphans == (old(orphans) - {id})[HashOf(tx) := tx])
      ensures orphans.Keys <= old(orphans).Keys + {HashOf(tx)}
    {
      hide *;
      var txid := HashOf(tx);
      if txid in orphans {
        return;
      }
      WaitingBound();
      if |orphans| >= maxOrph {
        SomeOrphan();
        var id :| id in orphans;
        OneFewer(orphans, id);
        DeleteOrphan(id);
      }
      FileOrphan(tx, missing);
    }

    lemma WaitingBound()
      requires WaitingOk()
      ensures |orphans| <= maxOrph && maxOrph > 0 && OrphansOk(orphans, orphRef)
    {
    }

    lemma SomeOrphan()
      requires |orphans| >= maxOrph > 0
      ensures exists id :: id in orphans
    {
      assert |orphans.Keys| > 0;
      var id :| id in orphans.Keys;
    }

    method FileOrphan(tx: Tx, missing: seq<OutPoint>)
      requires WaitingOk() && |orphans| < maxOrph && HashOf(tx) !in orphans && forall k :: k in missing ==> k in Inputs(tx)
      modifies `orphans, `orphRef
      ensures WaitingOk() && orphans == old(orphans)[HashOf(tx) := tx]
      ensures forall k :: k in missing ==> k in orphRef && HashOf(tx) in orphRef[k]
    {
      hide *;
      ghost var before, refs := orphans, orphRef;
      var txid := HashOf(tx);
      WaitingBound();
      WaitsNone(refs, txid);
      DepsNone(missing);
      orphans := orphans[txid := tx];
      for i := 0 to |missing|
        invariant orphans == before[txid := tx] && orphRef == Waits(refs, DepsOf(missing, i), txid)
      {
        WaitsStep(refs, DepsOf(missing, i), missing[i], txid);
        DepsStep(missing, i);
        orphRef := orphRef[missing[i] := (if missing[i] in orphRef then orphRef[missing[i]] else {}) + {txid}];
      }
      DepsAll(missing, Inputs(tx));
      OrphanIn(before, refs, tx, DepsOf(missing, |missing|));
      WaitsAt(refs, DepsOf(missing, |missing|), txid);
    }

    lemma OrphanIn(before: map<TxId, Tx>, refs: map<OutPoint, set<TxId>>, tx: Tx, deps: set<OutPoint>)
      requires OrphansOk(before, refs) && |before| < maxOrph && HashOf(tx) !in before && deps <= Inputs(tx)
      requires orphans == before[HashOf(tx) := tx] && orphRef == Waits(refs, deps, HashOf(tx))
      ensures WaitingOk()
    {
      OrphanFiled(before, refs, tx, deps);
      hide OrphansOk, Waits, Inputs;
      assert orphans.Keys == before.Keys + {HashOf(tx)};
      assert |orphans.Keys| == |before.Keys| + 1;
    }

    // ----- Removal for a connected block -----

    method SharesInput(tx: Tx, keys: set<OutPoint>) returns (shares: bool)
      ensures shares <==> Inputs(tx) * keys != {}
    {
      InputsAre(tx);
      for i := 0 to |tx.ins|
        invariant forall j :: 0 <= j < i ==> tx.ins[j].prev !in keys
      {
        if tx.ins[i].prev in keys {
          assert tx.ins[i].prev in Inputs(tx) * keys;
          return true;
        }
      }
      assert forall k :: k in Inputs(tx) ==> k !in keys;
      shares := false;
    }

    /** Drops exactly the entries that are in the block or spend an outpoint it spends, and all
      that depend on them; what is left keeps its edges and every invariant. */
    method RemoveForBlock(txs: seq<Tx>)
      requires Valid()
      modifies `entries, `spent, `parents, `childs
      ensures Valid()
      ensures Graph() == Without(old(Graph()), Doomed(old(Graph()), Hit(old(entries), txs)))
    {
      hide *;
      ValidParts();
      ghost var g0, kept := Graph(), entries;
      Fields();
      PurgeStart();
      var keys := CollectInputs(txs);
      ghost var roots := {};
      BlockIdsNone(txs);
      for i := 0 to |txs|
        invariant Purging(rules, policy, g0, roots, Graph()) && roots == BlockIds(txs, i)
      {
        PurgeNext(g0, roots, HashOf(txs[i]));
        RemoveEntry(HashOf(txs[i]));
        BlockIdsStep(txs, i);
        roots := roots + {HashOf(txs[i])};
      }
      roots := RemoveSharing(keys, g0, roots, txs);
      PurgeEnd(g0, roots, txs);
      Purged(g0, roots, Graph());
      Whole();
    }

    method CollectInputs(txs: seq<Tx>) returns (keys: set<OutPoint>)
      ensures keys == BlockInputs(txs, |txs|)
    {
      keys := {};
      for i := 0 to |txs|
        invariant keys == BlockInputs(txs, i)
      {
        var ins := txs[i].ins;
        ghost var before := keys;
        for j := 0 to |ins|
          invariant keys == before + InKeys(ins, j)
        {
          InKeysStep(ins, j);
          hide InKeys, BlockInputs;
          keys := keys + {ins[j].prev};
        }
      }
    }

    /** The second pass, over the entries that are still there. */
    method RemoveSharing(keys: set<OutPoint>, ghost g0: Dag, ghost before: set<TxId>, ghost txs: seq<Tx>) returns (ghost roots: set<TxId>)
      requires Purging(rules, policy, g0, before, Graph()) && keys == BlockInputs(txs, |txs|) && before == BlockIds(txs, |txs|)
      modifies `entries, `spent, `parents, `childs
      ensures Purging(rules, policy, g0, roots, Graph())
      ensures before <= roots && SharersGone(g0, keys, roots, {}) && RootsFair(g0, keys, before, roots)
    {
      hide *;
      roots := before;
      var todo := entries.Keys;
      Fields();
      SharersStart(rules, policy, g0, keys, before, Graph());
      while todo != {}
        invariant Purging(rules, policy, g0, roots, Graph()) && before <= roots
        invariant SharersGone(g0, keys, roots, todo) && RootsFair(g0, keys, before, roots)
        decreases todo
      {
        var txid :| txid in todo;
        Fields();
        if txid !in entries {
          SharerPassed(rules, policy, g0, keys, roots, todo, Graph(), txid);
          todo := todo - {txid};
          continue;
        }
        PurgingEntry(rules, policy, g0, keys, roots, Graph(), txid);
        var shares := SharesInput(entries[txid].tx, keys);
        SharerPassed(rules, policy, g0, keys, roots, todo, Graph(), txid);
        assert todo - {txid} + {txid} == todo;
        todo := todo - {txid};
        if shares {
          PurgeNext(g0, roots, txid);
          SharerAdded(g0, keys, before, roots, todo, txid);
          RemoveEntry(txid);
          roots := roots + {txid};
        }
      }
    }

    lemma PurgeStart()
      requires GraphOk() && |entries| <= maxTx
      ensures Purging(rules, policy, Graph(), {}, Graph()) && EdgesOk(Graph())
    {
      GraphParts();
      DoomedNone(Graph());
      hide DagOk, EdgesOk, Doomed, AllVetted;
    }

    lemma PurgeNext(g0: Dag, roots: set<TxId>, id: TxId)
      requires Purging(rules, policy, g0, roots, Graph())
      ensures DagOk(Graph()) && Purging(rules, policy, g0, roots + {id}, Without(Graph(), DescSet(Graph(), id)))
    {
      DagHasEdges(g0);
      DoomedNext(g0, roots, id);
      DoomedClosed(g0, roots);
      WithoutOk(g0, Doomed(g0, roots));
      hide DagOk, EdgesOk, Doomed, DescSet, AllVetted, Without;
    }

    lemma Purged(g0: Dag, roots: set<TxId>, g: Dag)
      requires Purging(rules, policy, g0, roots, g) && g == Graph() && |g0.entries| <= maxTx
      ensures GraphOk() && |entries| <= maxTx && g == Without(g0, Doomed(g0, roots))
    {
      DagHasEdges(g0);
      DoomedClosed(g0, roots);
      WithoutOk(g0, Doomed(g0, roots));
      VettedKept(rules, policy, g0.entries, Doomed(g0, roots));
      hide DagOk, EdgesOk, Doomed, AllVetted;
    }

    // ----- Adding -----

    /** Validates on the present state, commits, and lets the orphans that waited for the
      transaction try again.  Termination: every nested success takes one orphan away.  An orphan
      that waited for an accepted transaction and is still one afterwards was tried and did not
      validate. */
    method Add(view: ChainView, tx: Tx) returns (r: Result<Pooled, AddError>, ghost room: Dag, ghost tried: map<TxId, Dag>)
      requires Valid() && Sane(view.utxo)
      modifies this
      ensures Valid()
      ensures r.Ok? ==> Admits(rules, policy, view, old(Graph()), tx) && r.value == EntryFor(rules, policy, view, old(Graph()), tx)
      ensures r.Ok? ==> r.value.tx == tx && r.value.txid == HashOf(tx) && Vetted(rules, policy, r.value)
      ensures Outcome(rules, policy, maxTx, view, old(Graph()), tx, r.Ok?)
      ensures Admits(rules, policy, view, old(Graph()), tx) ==>
        var e := EntryFor(rules, policy, view, old(Graph()), tx);
        && (r.Ok? <==> !Full(old(Graph()), maxTx, e) && Insertable(room, e))
        && (!Full(old(Graph()), maxTx, e) ==> MadeRoom(old(Graph()), maxTx, e, room))
        && (r.Err? ==> Graph() == if Full(old(Graph()), maxTx, e) then old(Graph()) else room)
        && (r.Ok? && (forall id :: !WaitsOn(old(orphRef), HashOf(tx), id)) ==> Graph() == Inserted(room, e))
        && HashOf(tx) !in orphans
      ensures !Admits(rules, policy, view, old(Graph()), tx) ==> r.Err? && Graph() == old(Graph())
      ensures r.Ok? ==> orphans.Keys <= old(orphans).Keys - {HashOf(tx)}
      ensures r.Err? ==> orphans.Keys <= old(orphans).Keys + {HashOf(tx)}
      ensures var gs := Undisturbed(tx, Glimpse(old(spent), view.utxo, old(entries)));
        r == Err(Orphaned) <==>
          Passes(rules, policy, gs, tx, view.nextHeight, view.time) && MissingKeys(gs, tx, |tx.ins|, view.nextHeight) != []
      ensures r == Err(Orphaned) ==> HashOf(tx) in orphans
      ensures r.Ok? ==> forall id :: WaitsOn(old(orphRef), HashOf(tx), id) && id in orphans ==>
        id.HashOf? && id in tried && !Admits(rules, policy, view, tried[id], id.tx)
      decreases |orphans.Keys - {HashOf(tx)}|, 3
    {
      hide *;
      tried := map[];
      ValidParts();
      Fields();
      ghost var g := Graph();
      room := g;
      var glimpse := Glimpse(spent, view.utxo, entries);
      GlimpseNow(view, glimpse);
      var gs := Undisturbed(tx, glimpse);
      AllAlike(tx, glimpse);
      AdmitsIs(view, g, tx);
      OutcomeIs(view, g, tx, false);
      OutcomeIs(view, g, tx, true);
      MissingIs(gs, tx, view.nextHeight);
      var fee := ValidateTransaction(rules, policy, tx, gs, view.nextHeight, view.time);
      if fee.Err? {
        if fee.error.Missing? {
          MissingAreInputs(gs, tx, |tx.ins|, view.nextHeight);
          InputsAre(tx);
          AddOrphan(tx, fee.error.deps);
          Whole();
          return Err(Orphaned), room, tried;
        }
        return Err(Refused), room, tried;
      }
      var entry := Pooled(tx, HashOf(tx), fee.value, policy.size(tx));
      SoundFee(rules, gs, tx, view, fee.value);
      Standard(entry);
      var fit := CheckStandard(entry);
      if !fit {
        return Err(Refused), room, tried;
      }
      var ok;
      ok, room, tried := AddVetted(view, entry);
      r := if ok then Ok(entry) else Err(Refused);
    }

    /** The second half of Add. */
    method AddVetted(view: ChainView, e: Pooled) returns (ok: bool, ghost room: Dag, ghost tried: map<TxId, Dag>)
      requires Valid() && Sane(view.utxo) && Vetted(rules, policy, e)
      modifies this
      ensures Valid() && orphans.Keys <= old(orphans).Keys - {e.txid}
      ensures ok <==> !Full(old(Graph()), maxTx, e) && Insertable(room, e)
      ensures !Full(old(Graph()), maxTx, e) ==> MadeRoom(old(Graph()), maxTx, e, room)
      ensures |old(entries)| < maxTx ==> (ok <==> Insertable(old(Graph()), e))
      ensures !ok ==> Graph() == if Full(old(Graph()), maxTx, e) then old(Graph()) else room
      ensures ok && (forall id :: !WaitsOn(old(orphRef), e.txid, id)) ==> Graph() == Inserted(room, e)
      ensures ok ==> forall id :: WaitsOn(old(orphRef), e.txid, id) && id in orphans ==>
        id.HashOf? && id in tried && !Admits(rules, policy, view, tried[id], id.tx)
      decreases |orphans.Keys - {e.txid}|, 2
    {
      hide *;
      tried := map[];
      VettedId(rules, policy, e);
      Fields();
      NoRoomNeeded(Graph(), maxTx, e);
      ghost var refs, evicted := orphRef, None;
      ok, room, evicted := Commit(e);
      assert orphans.Keys == old(orphans).Keys - {e.txid};
      if !ok {
        return;
      }
      ghost var accepted;
      tried, accepted := PromoteOrphans(view, e.txid);
      PromotingLeft(rules, policy, maxTx, view, orphans, tried, accepted);
    }

    lemma AdmitsIs(view: ChainView, g: Dag, tx: Tx)
      ensures var gs := Undisturbed(tx, Glimpse(g.spent, view.utxo, g.entries));
        Admits(rules, policy, view, g, tx) <==>
          && |gs| == |tx.ins|
          && Passes(rules, policy, gs, tx, view.nextHeight, view.time)
          && MissingKeys(gs, tx, |tx.ins|, view.nextHeight) == []
          && 0 <= FeeFound(view, g, tx) <= MAX_MONEY as int
          && 0 < policy.size(tx) <= MAX_STANDARD_TX_SIZE && policy.standard(tx)
          && MeetsMinRelayFee(FeeFound(view, g, tx) as int64, policy.size(tx))
      ensures var gs := Undisturbed(tx, Glimpse(g.spent, view.utxo, g.entries));
        FeeFound(view, g, tx) == FoundIn(gs, tx, |tx.ins|, view.nextHeight) - SumOut(tx.outs, |tx.outs|)
    {
      hide Passes, MissingKeys, FoundIn, SumOut, MeetsMinRelayFee;
    }

    lemma OutcomeIs(view: ChainView, g: Dag, tx: Tx, ok: bool)
      ensures Outcome(rules, policy, maxTx, view, g, tx, ok) <==>
        && (ok ==> Admits(rules, policy, view, g, tx))
        && (|g.entries| < maxTx ==>
              (ok <==> Admits(rules, policy, view, g, tx) && Insertable(g, EntryFor(rules, policy, view, g, tx))))
      ensures Admits(rules, policy, view, g, tx) ==>
        EntryFor(rules, policy, view, g, tx) == Pooled(tx, HashOf(tx), FeeFound(view, g, tx) as int64, policy.size(tx))
    {
      hide Admits, Insertable, FeeFound;
    }

    lemma Standard(e: Pooled)
      ensures Vetted(rules, policy, e) ==>
        0 < e.size <= MAX_STANDARD_TX_SIZE && policy.standard(e.tx) && MeetsMinRelayFee(e.fee, e.size)
      ensures Vetted(rules, policy, e) <== e.txid == HashOf(e.tx) && Sound(rules, e.tx, e.fee as int) && e.size == policy.size(e.tx)
        && 0 < e.size <= MAX_STANDARD_TX_SIZE && policy.standard(e.tx) && MeetsMinRelayFee(e.fee, e.size)
    {
      hide Sound, MeetsMinRelayFee;
    }

    lemma AllAlike(tx: Tx, g: Glimpse)
      ensures |Undisturbed(tx, g)| == |tx.ins| && forall j :: 0 <= j < |tx.ins| ==> Undisturbed(tx, g)[j] == g
    {
    }

    lemma GlimpseNow(view: ChainView, g: Glimpse)
      requires GraphOk() && Sane(view.utxo) && g == Glimpse(spent, view.utxo, entries)
      ensures GlimpseOk(rules, policy, g)
    {
      hide AllVetted, Sane, DagOk;
    }

    method CheckStandard(e: Pooled) returns (ok: bool)
      requires e.txid == HashOf(e.tx) && e.size == policy.size(e.tx) && Sound(rules, e.tx, e.fee as int)
      ensures ok <==> Vetted(rules, policy, e)
    {
      hide Sound;
      if e.size <= 0 || e.size > MAX_STANDARD_TX_SIZE || !policy.standard(e.tx) {
        return false;
      }
      ok := MeetsMinRelayFee(e.fee, e.size);
    }

    /** The orphans that wait on some output of `parent` and were not tried before. */
    method Candidates(parent: TxId, seen: set<TxId>) returns (candidates: seq<TxId>, tried: set<TxId>)
      ensures forall id :: id in candidates <==>
        id !in seen && exists dep :: dep in orphRef && dep.hash == parent && id in orphRef[dep]
      ensures tried == seen + set id | id in candidates
    {
      candidates, tried := [], seen;
      var deps := orphRef.Keys;
      while deps != {}
        invariant deps <= orphRef.Keys
        invariant forall id :: id in candidates <==>
          id !in seen && exists dep :: dep in orphRef && dep !in deps && dep.hash == parent && id in orphRef[dep]
        invariant tried == seen + set id | id in candidates
        decreases deps
      {
        var dep :| dep in deps;
        if dep.hash == parent {
          var ids := orphRef[dep];
          ghost var before := candidates;
          while ids != {}
            invariant ids <= orphRef[dep]
            invariant forall id :: id in candidates <==> id in before || (id !in seen && id in orphRef[dep] && id !in ids)
            invariant tried == seen + set id | id in candidates
            decreases ids
          {
            var id :| id in ids;
            ids := ids - {id};
            if id !in tried {
              candidates, tried := candidates + [id], tried + {id};
            }
          }
        }
        deps := deps - {dep};
      }
    }

    /** Every orphan that waits on `parentTxID` is tried, unless it has left the orphan pool by its
      turn; `tried` has the pool each one met and `accepted` the ones that got in.  What is tried
      and stays an orphan did not validate on the pool it met. */
    method PromoteOrphans(view: ChainView, parentTxID: TxId) returns (ghost tried: map<TxId, Dag>, ghost accepted: set<TxId>)
      requires Valid() && Sane(view.utxo)
      modifies this
      ensures Valid() && orphans.Keys <= old(orphans).Keys
      ensures Promoting(rules, policy, maxTx, view, orphans, tried, accepted)
      ensures forall id :: WaitsOn(old(orphRef), parentTxID, id) ==> id in tried || id !in orphans
      ensures (forall id :: !WaitsOn(old(orphRef), parentTxID, id)) ==> Graph() == old(Graph()) && orphans == old(orphans)
      decreases |orphans.Keys|, 1
    {
      hide *;
      ghost var refs := orphRef;
      tried, accepted := map[], {};
      PromotingNone(rules, policy, maxTx, view, orphans);
      var queue, seen: set<TxId> := [parentTxID], {};
      while |queue| > 0
        invariant Valid() && orphans.Keys <= old(orphans).Keys
        invariant Promoting(rules, policy, maxTx, view, orphans, tried, accepted)
        invariant
          || (queue == [parentTxID] && seen == {} && orphRef == refs && Graph() == old(Graph()) && orphans == old(orphans))
          || (&& (forall id :: WaitsOn(refs, parentTxID, id) ==> id in tried || id !in orphans)
              && ((forall id :: !WaitsOn(refs, parentTxID, id)) ==> queue == [] && Graph() == old(Graph()) && orphans == old(orphans)))
        decreases |orphans.Keys| + |queue|
      {
        ghost var first := queue == [parentTxID] && seen == {} && orphRef == refs && Graph() == old(Graph()) && orphans == old(orphans);
        var parent := queue[0];
        queue := queue[1..];
        var candidates;
        ghost var before := seen;
        candidates, seen := Candidates(parent, seen);
        CandidatesWait(orphRef, parent, before, candidates);
        assert first ==> forall id :: WaitsOn(refs, parentTxID, id) <==> id in candidates;
        assert |candidates| > 0 ==> candidates[0] in candidates;
        ghost var budget := |orphans.Keys| + |queue|;
        for i := 0 to |candidates|
          invariant Valid() && orphans.Keys <= old(orphans).Keys && |orphans.Keys| + |queue| <= budget
          invariant Promoting(rules, policy, maxTx, view, orphans, tried, accepted)
          invariant forall j :: 0 <= j < i ==> candidates[j] in tried || candidates[j] !in orphans
          invariant !first ==> forall id :: WaitsOn(refs, parentTxID, id) ==> id in tried || id !in orphans
          invariant i == 0 && first ==> queue == [] && Graph() == old(Graph()) && orphans == old(orphans)
        {
          SubsetSize(orphans.Keys, old(orphans).Keys);
          var joined;
          joined, tried, accepted := TryOrphan(view, candidates[i], tried, accepted);
          if joined {
            queue := queue + [candidates[i]];
          }
        }
      }
    }

    /** One waiting orphan is tried, if it is still there. */
    method TryOrphan(view: ChainView, id: TxId, ghost before: map<TxId, Dag>, ghost wins: set<TxId>)
      returns (joined: bool, ghost tried: map<TxId, Dag>, ghost accepted: set<TxId>)
      requires Valid() && Sane(view.utxo) && Promoting(rules, policy, maxTx, view, orphans, before, wins)
      modifies this
      ensures Valid() && orphans.Keys <= old(orphans).Keys
      ensures |orphans.Keys| + (if joined then 1 else 0) <= |old(orphans).Keys|
      ensures Promoting(rules, policy, maxTx, view, orphans, tried, accepted)
      ensures before.Keys <= tried.Keys && (id in tried || id !in orphans)
      decreases |orphans.Keys|, 0
    {
      hide *;
      joined, tried, accepted := false, before, wins;
      if id !in orphans {
        return;
      }
      OrphanSelf(id);
      ghost var left, g := orphans, Graph();
      Fewer(left.Keys - {id}, left.Keys);
      OneFewer(left, id);
      var r, _, _ := Add(view, orphans[id]);
      joined := r.Ok?;
      SubsetSize(orphans.Keys, if joined then left.Keys - {id} else left.Keys);
      if id in before {
        PromotingOn(rules, policy, maxTx, view, left, before, wins, orphans);
      } else {
        PromotingNext(rules, policy, maxTx, view, left, before, wins, id, g, joined, orphans);
        tried, accepted := before[id := g], if joined then wins + {id} else wins;
      }
    }

    lemma CandidatesWait(refs: map<OutPoint, set<TxId>>, parent: TxId, seen: set<TxId>, candidates: seq<TxId>)
      requires forall id :: id in candidates <==> id !in seen && exists dep :: dep in refs && dep.hash == parent && id in refs[dep]
      ensures forall id :: id in candidates <==> id !in seen && WaitsOn(refs, parent, id)
    {
    }

    lemma OrphanSelf(id: TxId)
      requires Valid() && id in orphans
      ensures HashOf(orphans[id]) == id && id.HashOf? && orphans[id] == id.tx
    {
    }

    // ----- Topological order -----

    /** Visits parents first.  `done` lists the visited ids in order. */
    method Visit(id: TxId, limit: int, seen: set<TxId>, out: seq<Pooled>, ghost done: seq<TxId>)
      returns (seen': set<TxId>, out': seq<Pooled>, ghost done': seq<TxId>)
      requires EdgesOk(Graph()) && id in entries && Visited(Graph(), limit, seen, out, done)
      ensures Visited(Graph(), limit, seen', out', done') && id in seen' && seen <= seen'
      ensures forall x :: x in seen' && x !in seen ==> Rank(x) <= Rank(id)
      decreases Rank(id)
    {
      hide *;
      seen', out', done' := seen, out, done;
      if id in seen {
        return;
      }
      EdgeParts();
      var todo := set p | p in parents[id] && p in entries;
      ghost var ps := todo;
      while todo != {}
        invariant todo <= ps && Visited(Graph(), limit, seen', out', done') && seen <= seen'
        invariant forall p :: p in ps && p !in todo ==> p in seen'
        invariant forall x :: x in seen' && x !in seen ==> Rank(x) < Rank(id)
        decreases todo
      {
        var parent :| parent in todo;
        ParentOfEntry(Graph(), id, parent);
        seen', out', done' := Visit(parent, limit, seen', out', done');
        todo := todo - {parent};
      }
      VisitNext(Graph(), limit, seen', out', done', id);
      seen' := seen' + {id};
      done' := done' + [id];
      if limit <= 0 || |out'| < limit {
        out' := out' + [entries[id]];
      }
    }

    /** The entries, each after all of its recorded parents; all of them when `limit` is zero,
      else the first `limit`. */
    method EntriesTopological(limit: int) returns (out: seq<Pooled>)
      requires EdgesOk(Graph())
      ensures exists order: seq<TxId> :: ListsAll(Graph(), order) && out == Listed(entries, order, limit)
    {
      ghost var order: seq<TxId> := [];
      hide *;
      EdgeParts();
      var seen: set<TxId>, ids := {}, entries.Keys;
      out := [];
      VisitedNone(Graph(), limit);
      while ids != {}
        invariant ids <= entries.Keys && Visited(Graph(), limit, seen, out, order)
        invariant forall id :: id in entries && id !in ids ==> id in seen
        decreases ids
      {
        var id :| id in ids;
        seen, out, order := Visit(id, limit, seen, out, order);
        ids := ids - {id};
      }
      VisitedAll(Graph(), limit, seen, out, order);
    }
  }

  lemma DescRemovalOk(g: Dag, id: TxId)
    requires DagOk(g)
    ensures DagOk(Without(g, DescSet(g, id)))
  {
    DescClosed(g, id);
    WithoutOk(g, DescSet(g, id));
    hide *;
  }

  lemma DeepestNone(parents: map<TxId, set<TxId>>)
    ensures DeepestOf(parents, {}, 0)
  {
  }

  lemma DeepestStep(parents: map<TxId, set<TxId>>, ps: set<TxId>, d: nat, p: TxId)
    requires DeepestOf(parents, ps, d)
    ensures var above := 1 + Depth(parents, p);
      DeepestOf(parents, ps + {p}, if above > d then above else d)
  {
    hide Depth;
  }

  lemma KnownDepth(parents: map<TxId, set<TxId>>, memo: map<TxId, nat>, id: TxId)
    requires DepthsKnown(parents, memo) && id in memo
    ensures memo[id] == Depth(parents, id)
  {
  }

  lemma KnowMore(parents: map<TxId, set<TxId>>, memo: map<TxId, nat>, id: TxId)
    requires DepthsKnown(parents, memo)
    ensures DepthsKnown(parents, memo[id := Depth(parents, id)])
  {
    hide Depth;
  }

  lemma MissingIs(gs: seq<Glimpse>, tx: Tx, nextHeight: int)
    requires |tx.ins| == |gs|
    ensures |MissingKeys(gs, tx, |tx.ins|, nextHeight)| == 0 <==> MissingKeys(gs, tx, |tx.ins|, nextHeight) == []
  {
  }

  /** The fee of a sound transaction is an amount of money. */
  lemma SoundFee(rules: TxRules, gs: seq<Glimpse>, tx: Tx, view: ChainView, fee: int64)
    requires Sound(rules, tx, fee as int)
    ensures 0 <= fee <= MAX_MONEY
  {
    OutputsOkRange(tx.outs, |tx.outs|);
    assert NamedOk(rules, tx, |tx.ins| - 1);
    hide OutputsOk, SumOut, NamedIn, NamedOps, OutOps, InKeys;
  }

  lemma NoRoomNeeded(g: Dag, maxTx: nat, e: Pooled)
    ensures |g.entries| < maxTx ==> !Full(g, maxTx, e) && forall room :: MadeRoom(g, maxTx, e, room) ==> room == g
  {
    hide LowestLeaf, Rate;
  }

  lemma VettedId(rules: TxRules, policy: Policy, e: Pooled)
    requires Vetted(rules, policy, e)
    ensures e.txid == HashOf(e.tx)
  {
    hide Sound;
  }

  lemma VettedMore(rules: TxRules, policy: Policy, entries: map<TxId, Pooled>, e: Pooled)
    requires AllVetted(rules, policy, entries) && Vetted(rules, policy, e)
    ensures AllVetted(rules, policy, entries[e.txid := e]) && e.txid == HashOf(e.tx)
  {
    hide Sound;
  }

  lemma InsertingStart(g0: Dag, e: Pooled, spent: map<OutPoint, TxId>, parents: map<TxId, set<TxId>>, childs: map<TxId, set<TxId>>)
    requires spent == g0.spent && parents == g0.parents[e.txid := {}] && childs == g0.childs
    ensures Inserting(g0, e, 0, spent, parents, childs)
  {
    InsertStart(g0, e);
    hide Marked, LiveParents, Adopt, InKeys;
  }

  lemma RemoveOne(entries: map<TxId, Pooled>, id: TxId)
    requires id in entries
    ensures |entries - {id}| == |entries| - 1
  {
    assert (entries - {id}).Keys == entries.Keys - {id};
    assert |entries - {id}| == |(entries - {id}).Keys|;
  }

  lemma OneFewer(orphans: map<TxId, Tx>, id: TxId)
    requires id in orphans
    ensures |orphans - {id}| == |orphans| - 1
  {
    assert (orphans - {id}).Keys == orphans.Keys - {id};
    assert |orphans - {id}| == |(orphans - {id}).Keys|;
  }

  lemma DropNothing(orphans: map<TxId, Tx>, id: TxId)
    requires id !in orphans
    ensures orphans - {id} == orphans
  {
  }

  lemma ForgottenNone(refs: map<OutPoint, set<TxId>>, tx: Tx, id: TxId)
    ensures Forgotten(refs, InKeys(tx.ins, 0), id) == refs
  {
  }

  // ----- Removal for a block, on values -----

  /** The entries a block rules out by itself. */
  ghost function Hit(entries: map<TxId, Pooled>, txs: seq<Tx>): set<TxId> {
    set id | id in entries && (id in BlockIds(txs, |txs|) || Inputs(entries[id].tx) * BlockInputs(txs, |txs|) != {})
  }

  function BlockIds(txs: seq<Tx>, n: nat): set<TxId>
    requires n <= |txs|
  {
    set i | 0 <= i < n :: HashOf(txs[i])
  }

  function BlockInputs(txs: seq<Tx>, n: nat): set<OutPoint>
    requires n <= |txs|
  {
    if n == 0 then {} else BlockInputs(txs, n - 1) + InKeys(txs[n - 1].ins, |txs[n - 1].ins|)
  }

  lemma BlockIdsStep(txs: seq<Tx>, i: nat)
    requires i < |txs|
    ensures BlockIds(txs, i + 1) == BlockIds(txs, i) + {HashOf(txs[i])}
  {
  }

  lemma BlockIdsNone(txs: seq<Tx>)
    ensures BlockIds(txs, 0) == {}
  {
  }

  /** Part of the way: everything below `roots` is gone. */
  ghost predicate Purging(rules: TxRules, policy: Policy, g0: Dag, roots: set<TxId>, g: Dag) {
    DagOk(g0) && AllVetted(rules, policy, g0.entries) && g == Without(g0, Doomed(g0, roots))
  }

  lemma DagHasEdges(g: Dag)
    requires DagOk(g)
    ensures EdgesOk(g)
  {
  }

  predicate Sharer(g: Dag, keys: set<OutPoint>, id: TxId) {
    id in g.entries && Inputs(g.entries[id].tx) * keys != {}
  }

  /** Every entry that shares an input and was looked at is gone. */
  ghost predicate SharersGone(g0: Dag, keys: set<OutPoint>, roots: set<TxId>, todo: set<TxId>) {
    forall id :: Sharer(g0, keys, id) && id !in todo ==> id in Doomed(g0, roots)
  }

  /** Only sharers were added as roots. */
  ghost predicate RootsFair(g0: Dag, keys: set<OutPoint>, before: set<TxId>, roots: set<TxId>) {
    forall id :: id in roots && id !in before ==> Sharer(g0, keys, id)
  }

  lemma SharersStart(rules: TxRules, policy: Policy, g0: Dag, keys: set<OutPoint>, roots: set<TxId>, g: Dag)
    requires Purging(rules, policy, g0, roots, g)
    ensures SharersGone(g0, keys, roots, g.entries.Keys) && RootsFair(g0, keys, roots, roots)
  {
    hide DagOk, AllVetted, Doomed;
  }

  lemma SharerPassed(rules: TxRules, policy: Policy, g0: Dag, keys: set<OutPoint>, roots: set<TxId>, todo: set<TxId>, g: Dag, id: TxId)
    requires Purging(rules, policy, g0, roots, g) && SharersGone(g0, keys, roots, todo)
    ensures id !in g.entries || !Sharer(g0, keys, id) ==> SharersGone(g0, keys, roots, todo - {id})
  {
    hide DagOk, AllVetted, Doomed, Inputs;
  }

  lemma PurgingEntry(rules: TxRules, policy: Policy, g0: Dag, keys: set<OutPoint>, roots: set<TxId>, g: Dag, id: TxId)
    requires Purging(rules, policy, g0, roots, g) && id in g.entries
    ensures Sharer(g0, keys, id) <==> Inputs(g.entries[id].tx) * keys != {}
  {
    hide DagOk, AllVetted, Doomed;
  }

  lemma SharerAdded(g0: Dag, keys: set<OutPoint>, before: set<TxId>, roots: set<TxId>, todo: set<TxId>, id: TxId)
    requires Sharer(g0, keys, id) && RootsFair(g0, keys, before, roots)
    requires SharersGone(g0, keys, roots, todo + {id})
    ensures SharersGone(g0, keys, roots + {id}, todo) && RootsFair(g0, keys, before, roots + {id})
  {
    forall x | Sharer(g0, keys, x) && x !in todo
      ensures x in Doomed(g0, roots + {id})
    {
      if x == id {
        assert Descends(g0.parents, id, id);
      } else {
        var a :| a in roots && Descends(g0.parents, a, x);
      }
    }
    hide Doomed, Descends;
  }

  /** The order in which roots fell does not matter: what is gone is what the block rules out. */
  lemma PurgeEnd(g0: Dag, roots: set<TxId>, txs: seq<Tx>)
    requires EdgesOk(g0) && BlockIds(txs, |txs|) <= roots
    requires SharersGone(g0, BlockInputs(txs, |txs|), roots, {})
    requires RootsFair(g0, BlockInputs(txs, |txs|), BlockIds(txs, |txs|), roots)
    ensures Doomed(g0, roots) == Doomed(g0, Hit(g0.entries, txs))
  {
    forall b | b in g0.entries
      ensures b in Doomed(g0, roots) <==> b in Doomed(g0, Hit(g0.entries, txs))
    {
      PurgeBoth(g0, roots, txs, b);
    }
    hide EdgesOk, BlockIds, BlockInputs, Hit;
  }

  lemma PurgeBoth(g0: Dag, roots: set<TxId>, txs: seq<Tx>, b: TxId)
    requires EdgesOk(g0) && BlockIds(txs, |txs|) <= roots && b in g0.entries
    requires SharersGone(g0, BlockInputs(txs, |txs|), roots, {})
    requires RootsFair(g0, BlockInputs(txs, |txs|), BlockIds(txs, |txs|), roots)
    ensures b in Doomed(g0, roots) <==> b in Doomed(g0, Hit(g0.entries, txs))
  {
    hide EdgesOk, BlockIds, BlockInputs, Inputs, Descends;
    var hit := Hit(g0.entries, txs);
    if b in Doomed(g0, roots) {
      var a :| a in roots && Descends(g0.parents, a, b);
      if a !in g0.entries {
        StrangerAlone(g0, a, b);
        assert false;
      }
      assert a in hit;
    }
    if b in Doomed(g0, hit) {
      var a :| a in hit && Descends(g0.parents, a, b);
      if a !in roots {
        assert Sharer(g0, BlockInputs(txs, |txs|), a);
        var c :| c in roots && Descends(g0.parents, c, a);
        DescendsAcross(g0.parents, c, a, b);
      }
    }
  }

  // ----- Topological order, on values -----

  /** No repeats, and every recorded parent of an id stands before it. */
  ghost predicate Topological(g: Dag, order: seq<TxId>) {
    && (forall i, j :: 0 <= i < j < |order| ==> order[i] != order[j])
    && (forall i :: 0 <= i < |order| ==> order[i] in g.entries && ParentsIn(g, order[i], order[..i]))
  }

  /** An order of all entries, parents first. */
  ghost predicate ListsAll(g: Dag, order: seq<TxId>)
    ensures ListsAll(g, order) ==> forall id :: id in order ==> id in g.entries
  {
    Topological(g, order) && forall id :: id in order <==> id in g.entries
  }

  ghost predicate ParentsIn(g: Dag, id: TxId, before: seq<TxId>) {
    forall p :: id in g.parents && p in g.parents[id] ==> p in before
  }

  function Listed(entries: map<TxId, Pooled>, order: seq<TxId>, limit: int): seq<Pooled>
    requires forall id :: id in order ==> id in entries
  {
    var n := if limit <= 0 || limit > |order| then |order| else limit;
    seq(n, i requires 0 <= i < n => entries[order[i]])
  }

  ghost predicate Visited(g: Dag, limit: int, seen: set<TxId>, out: seq<Pooled>, done: seq<TxId>) {
    && Topological(g, done)
    && (forall id :: id in seen <==> id in done)
    && (forall id :: id in done ==> id in g.entries)
    && out == Listed(g.entries, done, limit)
  }

  lemma VisitedNone(g: Dag, limit: int)
    ensures Visited(g, limit, {}, [], [])
  {
  }

  lemma VisitNext(g: Dag, limit: int, seen: set<TxId>, out: seq<Pooled>, done: seq<TxId>, id: TxId)
    requires EdgesOk(g) && Visited(g, limit, seen, out, done) && id in g.entries && id !in seen
    requires forall p :: p in g.parents[id] && p in g.entries ==> p in seen
    ensures Visited(g, limit, seen + {id}, if limit <= 0 || |out| < limit then out + [g.entries[id]] else out, done + [id])
  {
    ParentsLive(g, id);
    TopoNext(g, done, id);
    hide Topological, EdgesOk;
  }

  lemma ParentsLive(g: Dag, id: TxId)
    requires EdgesOk(g) && id in g.entries
    ensures id in g.parents && forall p :: p in g.parents[id] ==> p in g.entries
  {
    hide Names;
  }

  lemma TopoNext(g: Dag, done: seq<TxId>, id: TxId)
    requires Topological(g, done) && id in g.entries && id !in done && ParentsIn(g, id, done)
    ensures Topological(g, done + [id])
  {
    var more := done + [id];
    forall i | 0 <= i < |more|
      ensures more[i] in g.entries && ParentsIn(g, more[i], more[..i])
    {
      assert more[..i] == if i < |done| then done[..i] else done;
      hide ParentsIn;
    }
    hide ParentsIn;
  }

  lemma VisitedAll(g: Dag, limit: int, seen: set<TxId>, out: seq<Pooled>, order: seq<TxId>)
    requires Visited(g, limit, seen, out, order) && forall id :: id in g.entries ==> id in seen
    ensures ListsAll(g, order) && out == Listed(g.entries, order, limit)
  {
    hide Topological;
  }

  lemma InputsAre(tx: Tx)
    ensures Inputs(tx) == InKeys(tx.ins, |tx.ins|)
  {
  }
}
