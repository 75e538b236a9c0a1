/** The pool's dependency graph as a value: the conflict map, the two dependency maps, and what
  insertion and descendant-closed removal do to them.
*/
module PoolDag {
  import opened Wire
  import opened ChainCfg
  import opened Ledger

  datatype Pooled = Pooled(tx: Tx, txid: TxId, fee: int64, size: int)

  const MAX_ANCESTOR_DEPTH := 25

  /** The four maps that describe the accepted transactions. */
  datatype Dag = Dag(
    entries: map<TxId, Pooled>, spent: map<OutPoint, TxId>,
    parents: map<TxId, set<TxId>>, childs: map<TxId, set<TxId>>)

  // ----- Rank: nothing contains its own hash -----

  /** How deep the transactions nest that `id` commits to, over its first n inputs. */
  function RankIn(id: TxId, n: nat): nat
    requires id.HashOf? && n <= |id.tx.ins|
    decreases id, n
  {
    if n == 0 then 0
    else
      var h := id.tx.ins[n - 1].prev.hash;
      var r := if h.ZeroTxId? then 0 else 1 + RankIn(h, |h.tx.ins|);
      var rest := RankIn(id, n - 1);
      if r > rest then r else rest
  }

  function Rank(id: TxId): nat {
    if id.ZeroTxId? then 0 else 1 + RankIn(id, |id.tx.ins|)
  }

  lemma {:induction false} RankInCovers(id: TxId, n: nat, i: nat)
    requires id.HashOf? && i < n <= |id.tx.ins|
    ensures Rank(id.tx.ins[i].prev.hash) <= RankIn(id, n)
    decreases n
  {
    if i < n - 1 {
      RankInCovers(id, n - 1, i);
    }
  }

  /** `p` is named by an input of `id`. */
  predicate Names(id: TxId, p: TxId) {
    id.HashOf? && exists i :: 0 <= i < |id.tx.ins| && id.tx.ins[i].prev.hash == p
  }

  lemma NamesLower(id: TxId, p: TxId)
    requires Names(id, p)
    ensures Rank(p) < Rank(id) && (id decreases to p)
  {
    var i :| 0 <= i < |id.tx.ins| && id.tx.ins[i].prev.hash == p;
    RankInCovers(id, |id.tx.ins|, i);
    assert (id decreases to id.tx.ins[i]);
  }

  // ----- Invariants -----

  /** Each spent outpoint has its one live spender, and each live input is marked. */
  ghost predicate SpentOk(g: Dag) {
    && (forall k :: k in g.spent ==> g.spent[k] in g.entries && k in Inputs(g.entries[g.spent[k]].tx))
    && (forall id, k :: id in g.entries && k in Inputs(g.entries[id].tx) ==> k in g.spent && g.spent[k] == id)
  }

  function Inputs(tx: Tx): set<OutPoint> {
    InKeys(tx.ins, |tx.ins|)
  }

  /** The two dependency maps are inverse relations on live entries, along named inputs. */
  ghost predicate EdgesOk(g: Dag) {
    && g.parents.Keys == g.entries.Keys
    && g.childs.Keys <= g.entries.Keys
    && (forall id, p :: id in g.parents && p in g.parents[id] ==> Names(id, p) && p in g.childs && id in g.childs[p])
    && (forall p, c :: p in g.childs && c in g.childs[p] ==> c in g.parents && p in g.parents[c])
    && (forall p :: p in g.childs ==> g.childs[p] != {})
  }

  ghost predicate KeysOk(g: Dag) {
    forall id :: id in g.entries ==> id == g.entries[id].txid == HashOf(g.entries[id].tx)
  }

  ghost predicate DepthsOk(g: Dag) {
    forall id :: id in g.entries ==> Depth(g.parents, id) <= MAX_ANCESTOR_DEPTH
  }

  ghost predicate DagOk(g: Dag) {
    KeysOk(g) && SpentOk(g) && EdgesOk(g) && DepthsOk(g)
  }

  // ----- Descendants and depth -----

  /** `b` is `a` or reaches it through recorded parents. */
  predicate Descends(parents: map<TxId, set<TxId>>, a: TxId, b: TxId)
    decreases b
  {
    || b == a
    || (b.HashOf? && b in parents
        && exists i :: 0 <= i < |b.tx.ins| && b.tx.ins[i].prev.hash in parents[b]
                       && Descends(parents, a, b.tx.ins[i].prev.hash))
  }

  lemma DescendsThrough(parents: map<TxId, set<TxId>>, a: TxId, b: TxId, p: TxId)
    requires b in parents && p in parents[b] && Names(b, p) && Descends(parents, a, p)
    ensures Descends(parents, a, b)
  {
    var i :| 0 <= i < |b.tx.ins| && b.tx.ins[i].prev.hash == p;
    assert b.tx.ins[i].prev.hash in parents[b];
  }

  /** The last step of a proper descent. */
  lemma LastStep(parents: map<TxId, set<TxId>>, a: TxId, b: TxId) returns (p: TxId)
    requires Descends(parents, a, b) && b != a
    ensures b in parents && p in parents[b] && Names(b, p) && Descends(parents, a, p)
  {
    var i :| 0 <= i < |b.tx.ins| && b.tx.ins[i].prev.hash in parents[b] && Descends(parents, a, b.tx.ins[i].prev.hash);
    p := b.tx.ins[i].prev.hash;
  }

  lemma {:induction false} DescendsRank(parents: map<TxId, set<TxId>>, a: TxId, b: TxId)
    requires Descends(parents, a, b) && a != b
    ensures Rank(a) < Rank(b)
    decreases b
  {
    var p := LastStep(parents, a, b);
    NamesLower(b, p);
    if p != a {
      DescendsRank(parents, a, p);
    }
  }

  /** The entries that are `a` or depend on it. */
  function DescSet(g: Dag, a: TxId): set<TxId> {
    set b | b in g.entries && Descends(g.parents, a, b)
  }

  /** The entries that depend on a member of `roots`. */
  ghost function Doomed(g: Dag, roots: set<TxId>): set<TxId> {
    set b | b in g.entries && exists a :: a in roots && Descends(g.parents, a, b)
  }

  /** The longest chain of recorded ancestors above `id`, over its first n inputs. */
  function DepthIn(parents: map<TxId, set<TxId>>, id: TxId, n: nat): nat
    requires id.HashOf? && n <= |id.tx.ins|
    decreases id, n
  {
    if n == 0 then 0
    else
      var h := id.tx.ins[n - 1].prev.hash;
      var d := if id in parents && h in parents[id]
               then 1 + if h.HashOf? then DepthIn(parents, h, |h.tx.ins|) else 0
               else 0;
      var rest := DepthIn(parents, id, n - 1);
      if d > rest then d else rest
  }

  function Depth(parents: map<TxId, set<TxId>>, id: TxId): nat {
    if id.ZeroTxId? then 0 else DepthIn(parents, id, |id.tx.ins|)
  }

  /** Depth is the least bound that is one above each parent's. */
  lemma {:induction false} DepthInBound(parents: map<TxId, set<TxId>>, id: TxId, n: nat, bound: nat)
    requires id.HashOf? && n <= |id.tx.ins|
    requires forall i :: 0 <= i < n && id in parents && id.tx.ins[i].prev.hash in parents[id] ==>
      1 + Depth(parents, id.tx.ins[i].prev.hash) <= bound
    ensures DepthIn(parents, id, n) <= bound
  {
    if n > 0 {
      DepthInBound(parents, id, n - 1, bound);
    }
  }

  lemma {:induction false} DepthInCovers(parents: map<TxId, set<TxId>>, id: TxId, n: nat, i: nat)
    requires id.HashOf? && i < n <= |id.tx.ins| && id in parents && id.tx.ins[i].prev.hash in parents[id]
    ensures 1 + Depth(parents, id.tx.ins[i].prev.hash) <= DepthIn(parents, id, n)
    decreases n
  {
    if i < n - 1 {
      DepthInCovers(parents, id, n - 1, i);
    }
  }

  /** Depth, over the recorded parents rather than the inputs. */
  lemma DepthIs(parents: map<TxId, set<TxId>>, id: TxId, bound: nat)
    requires id in parents && forall p :: p in parents[id] ==> Names(id, p)
    ensures forall p :: p in parents[id] ==> 1 + Depth(parents, p) <= Depth(parents, id)
    ensures (forall p :: p in parents[id] ==> 1 + Depth(parents, p) <= bound) ==> Depth(parents, id) <= bound
  {
    forall p | p in parents[id]
      ensures 1 + Depth(parents, p) <= Depth(parents, id)
    {
      var i :| 0 <= i < |id.tx.ins| && id.tx.ins[i].prev.hash == p;
      DepthInCovers(parents, id, |id.tx.ins|, i);
    }
    if id.HashOf? && forall p :: p in parents[id] ==> 1 + Depth(parents, p) <= bound {
      DepthInBound(parents, id, |id.tx.ins|, bound);
    }
  }

  // ----- Removal -----

  ghost predicate Closed(g: Dag, gone: set<TxId>) {
    forall p, c :: p in gone && p in g.childs && c in g.childs[p] ==> c in gone
  }

  function ChildsWithout(childs: map<TxId, set<TxId>>, gone: set<TxId>): map<TxId, set<TxId>> {
    map p | p in childs && p !in gone && childs[p] - gone != {} :: childs[p] - gone
  }

  function Without(g: Dag, gone: set<TxId>): Dag {
    Dag(g.entries - gone, map k | k in g.spent && g.spent[k] !in gone :: g.spent[k], g.parents - gone,
        ChildsWithout(g.childs, gone))
  }

  lemma WithoutNone(g: Dag)
    requires EdgesOk(g)
    ensures Without(g, {}) == g
  {
    var h := Without(g, {});
    assert h.entries == g.entries && h.spent == g.spent && h.parents == g.parents;
    forall p | p in g.childs
      ensures p in h.childs && h.childs[p] == g.childs[p]
    {
      assert g.childs[p] - {} == g.childs[p];
    }
    assert h.childs == g.childs;
  }

  lemma ChildsTwice(childs: map<TxId, set<TxId>>, a: set<TxId>, b: set<TxId>)
    ensures ChildsWithout(ChildsWithout(childs, a), b) == ChildsWithout(childs, a + b)
  {
    forall p | p in childs
      ensures childs[p] - a - b == childs[p] - (a + b)
    {
    }
  }

  lemma WithoutTwice(g: Dag, a: set<TxId>, b: set<TxId>)
    ensures Without(Without(g, a), b) == Without(g, a + b)
  {
    ChildsTwice(g.childs, a, b);
    hide ChildsWithout;
  }

  /** A parent of something kept is kept. */
  lemma KeptParent(g: Dag, gone: set<TxId>, b: TxId, p: TxId)
    requires EdgesOk(g) && Closed(g, gone) && b in g.parents && b !in gone && p in g.parents[b]
    ensures p !in gone && p in g.entries && Names(b, p) && (b decreases to p)
  {
    NamesLower(b, p);
    hide Names;
  }

  lemma {:induction false} DescendsKept(g: Dag, gone: set<TxId>, a: TxId, b: TxId)
    requires EdgesOk(g) && Closed(g, gone) && b in g.entries && b !in gone
    ensures Descends(g.parents - gone, a, b) <==> Descends(g.parents, a, b)
    decreases b
  {
    hide EdgesOk, Closed, Names;
    EntryHasParents(g, b);
    if a != b && Descends(g.parents, a, b) {
      var p := LastStep(g.parents, a, b);
      KeptParent(g, gone, b, p);
      DescendsKept(g, gone, a, p);
      DescendsThrough(g.parents - gone, a, b, p);
    }
    if a != b && Descends(g.parents - gone, a, b) {
      var p := LastStep(g.parents - gone, a, b);
      KeptParent(g, gone, b, p);
      DescendsKept(g, gone, a, p);
      DescendsThrough(g.parents, a, b, p);
    }
  }

  lemma EntryHasParents(g: Dag, id: TxId)
    requires EdgesOk(g)
    ensures id in g.entries <==> id in g.parents
    ensures id in g.childs ==> id in g.entries
  {
  }

  lemma {:induction false} DepthKept(g: Dag, gone: set<TxId>, b: TxId)
    requires EdgesOk(g) && Closed(g, gone) && b in g.entries && b !in gone
    ensures Depth(g.parents - gone, b) == Depth(g.parents, b)
    decreases b
  {
    EntryHasParents(g, b);
    var kept := g.parents - gone;
    forall p | p in g.parents[b]
      ensures Names(b, p) && Depth(kept, p) == Depth(g.parents, p)
    {
      KeptParent(g, gone, b, p);
      DepthKept(g, gone, p);
    }
    hide EdgesOk, Closed, Names, DepthIn, Depth;
    DepthIs(kept, b, Depth(g.parents, b));
    DepthIs(g.parents, b, Depth(kept, b));
  }

  /** Removing a descendant-closed set keeps every invariant. */
  lemma WithoutOk(g: Dag, gone: set<TxId>)
    requires DagOk(g) && Closed(g, gone)
    ensures DagOk(Without(g, gone))
  {
    var h := Without(g, gone);
    WithoutEdges(g, gone);
    WithoutSpent(g, gone);
    forall id | id in h.entries
      ensures Depth(h.parents, id) <= MAX_ANCESTOR_DEPTH
    {
      DepthKept(g, gone, id);
    }
    hide SpentOk, EdgesOk, Depth, Closed;
  }

  lemma WithoutEdges(g: Dag, gone: set<TxId>)
    requires EdgesOk(g) && Closed(g, gone)
    ensures EdgesOk(Without(g, gone))
  {
    hide Names;
    var h := Without(g, gone);
    forall id, p | id in h.parents && p in h.parents[id]
      ensures Names(id, p) && p in h.childs && id in h.childs[p]
    {
      KeptParent(g, gone, id, p);
      assert id in g.childs[p] - gone;
    }
  }

  lemma WithoutSpent(g: Dag, gone: set<TxId>)
    requires SpentOk(g)
    ensures SpentOk(Without(g, gone))
  {
    hide Inputs;
  }

  lemma DescClosed(g: Dag, a: TxId)
    requires EdgesOk(g)
    ensures Closed(g, DescSet(g, a))
  {
    forall p, c | p in DescSet(g, a) && p in g.childs && c in g.childs[p]
      ensures c in DescSet(g, a)
    {
      DescendsThrough(g.parents, a, c, p);
    }
  }

  lemma DoomedClosed(g: Dag, roots: set<TxId>)
    requires EdgesOk(g)
    ensures Closed(g, Doomed(g, roots))
  {
    forall p, c | p in Doomed(g, roots) && p in g.childs && c in g.childs[p]
      ensures c in Doomed(g, roots)
    {
      var a :| a in roots && Descends(g.parents, a, p);
      DescendsThrough(g.parents, a, c, p);
    }
  }

  /** Only entries have descendants other than themselves. */
  lemma {:induction false} StrangerAlone(g: Dag, a: TxId, b: TxId)
    requires EdgesOk(g) && a !in g.entries && b in g.entries
    ensures !Descends(g.parents, a, b)
    decreases b
  {
    if Descends(g.parents, a, b) {
      var p := LastStep(g.parents, a, b);
      NamesLower(b, p);
      StrangerAlone(g, a, p);
    }
  }

  /** Removing what hangs below `a`, after what hung below `roots` went, is removing both. */
  lemma DoomedNext(g: Dag, roots: set<TxId>, a: TxId)
    requires EdgesOk(g)
    ensures var h := Without(g, Doomed(g, roots));
      EdgesOk(h) && Without(h, DescSet(h, a)) == Without(g, Doomed(g, roots + {a}))
  {
    var gone := Doomed(g, roots);
    DoomedClosed(g, roots);
    WithoutEdges(g, gone);
    var h := Without(g, gone);
    forall b | b in g.entries
      ensures b in gone + DescSet(h, a) <==> b in Doomed(g, roots + {a})
    {
      if b !in gone {
        DescendsKept(g, gone, a, b);
      }
      hide Descends, EdgesOk, Closed;
    }
    assert gone + DescSet(h, a) == Doomed(g, roots + {a});
    WithoutTwice(g, gone, DescSet(h, a));
    hide *;
  }

  lemma DoomedNone(g: Dag)
    requires EdgesOk(g)
    ensures Without(g, Doomed(g, {})) == g
  {
    WithoutNone(g);
    assert Doomed(g, {}) == {};
  }

  /** The descendants of `a` are `a` and the descendants of its children. */
  lemma DescSplit(g: Dag, a: TxId)
    requires EdgesOk(g) && a in g.entries
    ensures var below := if a in g.childs then g.childs[a] else {};
      && a !in Doomed(g, below)
      && DescSet(g, a) == Doomed(g, below) + {a}
  {
    hide Names;
    var below := if a in g.childs then g.childs[a] else {};
    forall b | b in g.entries
      ensures b in DescSet(g, a) <==> b == a || b in Doomed(g, below)
    {
      if b in Doomed(g, below) {
        var c :| c in below && Descends(g.parents, c, b);
        DescendsTrans(g, a, c, b);
      }
      if b != a && Descends(g.parents, a, b) {
        var c := FirstStep(g, a, b);
      }
    }
    if a in Doomed(g, below) {
      var c :| c in below && Descends(g.parents, c, a);
      ChildHigher(g, a, c);
      DescendsRank(g.parents, c, a);
    }
    hide EdgesOk, Descends;
  }

  lemma ChildHigher(g: Dag, p: TxId, c: TxId)
    requires EdgesOk(g) && p in g.childs && c in g.childs[p]
    ensures Rank(p) < Rank(c) && c in g.entries && p in g.parents[c]
  {
    NamesLower(c, p);
    hide Names;
  }

  lemma {:induction false} DescendsAcross(parents: map<TxId, set<TxId>>, a: TxId, c: TxId, b: TxId)
    requires Descends(parents, a, c) && Descends(parents, c, b)
    ensures Descends(parents, a, b)
    decreases b
  {
    if b != c {
      var p := LastStep(parents, c, b);
      NamesLower(b, p);
      DescendsAcross(parents, a, c, p);
      DescendsThrough(parents, a, b, p);
    }
  }

  lemma DescendsTrans(g: Dag, a: TxId, c: TxId, b: TxId)
    requires EdgesOk(g) && a in g.childs && c in g.childs[a] && Descends(g.parents, c, b)
    ensures Descends(g.parents, a, b)
  {
    DescendsThrough(g.parents, a, c, a);
    DescendsAcross(g.parents, a, c, b);
  }

  lemma {:induction false} FirstStep(g: Dag, a: TxId, b: TxId) returns (c: TxId)
    requires EdgesOk(g) && b in g.entries && b != a && Descends(g.parents, a, b)
    ensures a in g.childs && c in g.childs[a] && Descends(g.parents, c, b)
    decreases b
  {
    var p := LastStep(g.parents, a, b);
    NamesLower(b, p);
    if p == a {
      c := b;
    } else {
      c := FirstStep(g, a, p);
      DescendsThrough(g.parents, c, b, p);
    }
  }

  /** A child's descendants are fewer. */
  lemma ChildFewer(g: Dag, a: TxId, gone: set<TxId>, c: TxId)
    requires EdgesOk(g) && a in g.entries && a in g.childs && c in g.childs[a] && Closed(g, gone) && a !in gone
    ensures DescSet(Without(g, gone), c) < DescSet(g, a)
  {
    var h := Without(g, gone);
    forall b | b in DescSet(h, c)
      ensures b in DescSet(g, a)
    {
      DescendsKept(g, gone, c, b);
      DescendsTrans(g, a, c, b);
    }
    ChildHigher(g, a, c);
    if a in DescSet(h, c) {
      DescendsKept(g, gone, c, a);
      DescendsRank(g.parents, c, a);
    }
    assert a in DescSet(g, a) && a !in DescSet(h, c);
    hide EdgesOk, Descends;
  }

  /** Some entry has no children, unless the pool is empty: the one of highest rank. */
  lemma LeafExists(g: Dag) returns (leaf: TxId)
    requires EdgesOk(g) && g.entries != map[]
    ensures leaf in g.entries && leaf !in g.childs
  {
    leaf := Highest(g.entries.Keys);
    if leaf in g.childs {
      var c :| c in g.childs[leaf];
      ChildHigher(g, leaf, c);
    }
  }

  lemma {:induction false} Highest(ids: set<TxId>) returns (top: TxId)
    requires ids != {}
    ensures top in ids && forall id :: id in ids ==> Rank(id) <= Rank(top)
    decreases |ids|
  {
    var x :| x in ids;
    if ids == {x} {
      top := x;
    } else {
      top := Highest(ids - {x});
      if Rank(top) < Rank(x) {
        top := x;
      }
    }
  }

  // ----- Insertion -----

  function LiveParents(entries: map<TxId, Pooled>, ins: seq<TxIn>, n: nat): set<TxId>
    requires n <= |ins|
  {
    set i | 0 <= i < n && ins[i].prev.hash in entries :: ins[i].prev.hash
  }

  /** `id` becomes a child of each of `ps`. */
  function Adopt(childs: map<TxId, set<TxId>>, ps: set<TxId>, id: TxId): map<TxId, set<TxId>> {
    map p | p in childs.Keys + ps :: (if p in childs then childs[p] else {}) + (if p in ps then {id} else {})
  }

  function Marked(spent: map<OutPoint, TxId>, keys: set<OutPoint>, id: TxId): map<OutPoint, TxId> {
    map k | k in spent.Keys + keys :: if k in keys then id else spent[k]
  }

  function Inserted(g: Dag, e: Pooled): Dag {
    var ps := LiveParents(g.entries, e.tx.ins, |e.tx.ins|);
    Dag(g.entries[e.txid := e], Marked(g.spent, Inputs(e.tx), e.txid), g.parents[e.txid := ps],
        Adopt(g.childs, ps, e.txid))
  }

  /** What a commit checks under the lock. */
  ghost predicate Insertable(g: Dag, e: Pooled) {
    && e.txid == HashOf(e.tx) && e.txid !in g.entries
    && Inputs(e.tx) !! g.spent.Keys
    && forall p :: p in LiveParents(g.entries, e.tx.ins, |e.tx.ins|) ==> 1 + Depth(g.parents, p) <= MAX_ANCESTOR_DEPTH
  }

  lemma InsertedEdges(g: Dag, e: Pooled)
    requires EdgesOk(g) && Insertable(g, e)
    ensures EdgesOk(Inserted(g, e))
  {
    hide Inserted, Names, LiveParents, Depth, Insertable, Adopt;
    var h := Inserted(g, e);
    forall id, p | id in h.parents && p in h.parents[id]
      ensures Names(id, p) && p in h.childs && id in h.childs[p]
    {
      InsertedUp(g, e, id, p);
    }
    forall p, c | p in h.childs && c in h.childs[p]
      ensures c in h.parents && p in h.parents[c]
    {
      InsertedDown(g, e, p, c);
    }
    InsertedKeys(g, e);
  }

  lemma NewcomerUnknown(g: Dag, e: Pooled)
    requires EdgesOk(g) && Insertable(g, e)
    ensures e.txid !in g.childs && e.txid !in g.parents
  {
    hide Names, LiveParents, Depth;
  }

  lemma InsertedKeys(g: Dag, e: Pooled)
    requires EdgesOk(g) && Insertable(g, e)
    ensures var h := Inserted(g, e);
      && h.parents.Keys == h.entries.Keys && h.childs.Keys <= h.entries.Keys
      && forall p :: p in h.childs ==> h.childs[p] != {}
  {
    NewParents(g, e);
    hide Names, LiveParents, Depth, Insertable;
  }

  lemma InsertedUp(g: Dag, e: Pooled, id: TxId, p: TxId)
    requires EdgesOk(g) && Insertable(g, e)
    requires id in Inserted(g, e).parents && p in Inserted(g, e).parents[id]
    ensures var h := Inserted(g, e);
      Names(id, p) && p in h.childs && id in h.childs[p]
  {
    NewParents(g, e);
    hide Names, LiveParents, Depth, Insertable;
    if id != e.txid {
      assert id in g.parents && p in g.parents[id];
      hide EdgesOk;
    }
  }

  lemma InsertedDown(g: Dag, e: Pooled, p: TxId, c: TxId)
    requires EdgesOk(g) && Insertable(g, e)
    requires p in Inserted(g, e).childs && c in Inserted(g, e).childs[p]
    ensures var h := Inserted(g, e);
      c in h.parents && p in h.parents[c]
  {
    hide EdgesOk, Names, Depth, Insertable, LiveParents, Adopt;
    NewcomerUnknown(g, e);
    var ps := LiveParents(g.entries, e.tx.ins, |e.tx.ins|);
    AdoptedFrom(g.childs, ps, e.txid, p, c);
    if p in g.childs && c in g.childs[p] {
      ChildKnown(g, p, c);
    }
  }

  lemma AdoptedFrom(childs: map<TxId, set<TxId>>, ps: set<TxId>, id: TxId, p: TxId, c: TxId)
    requires var after := Adopt(childs, ps, id);
      p in after && c in after[p]
    ensures (p in childs && c in childs[p]) || (p in ps && c == id)
  {
  }

  lemma ChildKnown(g: Dag, p: TxId, c: TxId)
    requires EdgesOk(g) && p in g.childs && c in g.childs[p]
    ensures c in g.parents && p in g.parents[c]
  {
    hide Names;
  }

  lemma NewParents(g: Dag, e: Pooled)
    requires Insertable(g, e)
    ensures forall p :: p in LiveParents(g.entries, e.tx.ins, |e.tx.ins|) ==> Names(e.txid, p) && p in g.entries && p != e.txid
  {
    hide Depth;
  }

  lemma InsertedSpent(g: Dag, e: Pooled)
    requires SpentOk(g) && Insertable(g, e)
    ensures SpentOk(Inserted(g, e))
  {
    hide Inputs, LiveParents, Depth, Adopt;
  }

  /** A newcomer is nobody's parent, so no other depth changes. */
  lemma {:induction false} DepthOther(g: Dag, e: Pooled, b: TxId)
    requires EdgesOk(g) && Insertable(g, e) && b in g.entries
    ensures Depth(Inserted(g, e).parents, b) == Depth(g.parents, b)
    decreases b
  {
    var more := Inserted(g, e).parents;
    assert b in g.parents && b != e.txid && more[b] == g.parents[b];
    forall p | p in g.parents[b]
      ensures Names(b, p) && Depth(more, p) == Depth(g.parents, p)
    {
      NamesLower(b, p);
      DepthOther(g, e, p);
      hide *;
    }
    hide EdgesOk, Names, DepthIn, Depth, Inserted;
    DepthIs(more, b, Depth(g.parents, b));
    DepthIs(g.parents, b, Depth(more, b));
  }

  lemma InsertedDepths(g: Dag, e: Pooled)
    requires EdgesOk(g) && DepthsOk(g) && Insertable(g, e)
    ensures DepthsOk(Inserted(g, e))
  {
    var h := Inserted(g, e);
    InsertedEdges(g, e);
    forall id | id in g.entries
      ensures Depth(h.parents, id) <= MAX_ANCESTOR_DEPTH
    {
      DepthOther(g, e, id);
      hide EdgesOk, Depth;
    }
    NewDepth(g, e);
    hide EdgesOk, Depth;
  }

  lemma NewDepth(g: Dag, e: Pooled)
    requires EdgesOk(g) && Insertable(g, e) && EdgesOk(Inserted(g, e))
    ensures Depth(Inserted(g, e).parents, e.txid) <= MAX_ANCESTOR_DEPTH
  {
    var h, ps := Inserted(g, e), LiveParents(g.entries, e.tx.ins, |e.tx.ins|);
    assert h.parents[e.txid] == ps;
    forall p | p in ps
      ensures Depth(h.parents, p) == Depth(g.parents, p) && Names(e.txid, p)
    {
      DepthOther(g, e, p);
      hide Depth, Names, Inserted;
    }
    hide EdgesOk, Depth, DepthIn, Names, Inserted;
    DepthIs(h.parents, e.txid, MAX_ANCESTOR_DEPTH);
  }

  lemma InsertedOk(g: Dag, e: Pooled)
    requires DagOk(g) && Insertable(g, e)
    ensures DagOk(Inserted(g, e))
  {
    InsertedEdges(g, e);
    InsertedSpent(g, e);
    InsertedDepths(g, e);
    hide EdgesOk, SpentOk, DepthsOk, Insertable, Adopt, Marked;
  }
}
