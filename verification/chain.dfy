/** The active chain: validation against it, extension, disconnection, and the switch to a
  heavier branch.
*/
module Blockchain {
  import opened Wire
  import opened ChainCfg
  import opened Consensus
  import opened Ledger
  import opened Batch
  import opened Supply
  import opened Unique
  import opened ChainPath
  import opened Storage
  import opened Active
  import opened Store
  import opened HeaderBatch

  /** A block that was received on a branch and never connected. */
  datatype SideNode = SideNode(hash: Hash, parent: Hash, height: int, block: Block, chainWork: nat)

  const MAX_ORPHAN_BLOCKS := 128
  const MAX_SIDE_CHAIN_DEPTH := 288

  // ----- What the chain object keeps, as predicates on values -----

  /** The hypothesis on the blocks handed in: a chain of them that is valid from the first block `g`
    on (from any first block, while there is none) has pairwise different coinbases.  Blocks that
    are on no valid chain are not restricted. */
  ghost predicate WorldOk(params: Params, world: iset<Block>, g: Hash) {
    forall p: seq<Block>, t: Clock :: ValidPath(params, p, t) && InWorld(world, p) && Begins(p, g) ==> CoinbasesDistinct(p)
  }

  predicate Begins(p: seq<Block>, g: Hash) {
    g == ZeroHash || RootOf(p) == g
  }

  ghost predicate InWorld(world: iset<Block>, p: seq<Block>) {
    forall i :: 0 <= i < |p| ==> p[i] in world
  }

  /** Disk, path and tip record agree, and the path is valid by the clock. */
  ghost predicate Core(params: Params, world: iset<Block>, d: Disk, path: seq<Block>, tip: Option<BlockIndex>, clock: Clock) {
    && WorldOk(params, world, RootOf(path))
    && InWorld(world, path)
    && StoreOk(d, path)
    && IndexClosed(d, RootOf(path))
    && (|path| == 0 ==> d.hashIndex == map[])
    && tip == TipIndex(path)
    && ValidPath(params, path, clock)
  }

  /** What is left of that after any crash: a stored block may lack its parent. */
  ghost predicate Base(params: Params, world: iset<Block>, d: Disk, path: seq<Block>, tip: Option<BlockIndex>, clock: Clock) {
    && WorldOk(params, world, RootOf(path))
    && InWorld(world, path)
    && StoreOk(d, path)
    && RecordsOk(d, RootOf(path))
    && (|path| == 0 ==> d.hashIndex == map[])
    && tip == TipIndex(path)
    && ValidPath(params, path, clock)
  }

  lemma CoreIs(params: Params, world: iset<Block>, d: Disk, path: seq<Block>, tip: Option<BlockIndex>, clock: Clock)
    ensures Core(params, world, d, path, tip, clock)
       <==> Base(params, world, d, path, tip, clock) && NoGap(d, RootOf(path))
  {
    ClosedIs(d, RootOf(path));
    hide WorldOk, InWorld, StoreOk, ValidPath, RecordsOk, IndexClosed, NoGap, RootOf;
  }

  /** Every memoised work value is the sum of work along the parent path. */
  ghost predicate MemoOk(g: Hash, work: map<Hash, nat>, parents: map<Hash, Hash>) {
    && work.Keys == parents.Keys
    && forall h :: h in work ==> MemoEntryOk(g, work, parents, h)
  }

  ghost predicate MemoEntryOk(g: Hash, work: map<Hash, nat>, parents: map<Hash, Hash>, h: Hash)
    requires h in work && h in parents
  {
    && g.HeaderHash? && h.HeaderHash? && Rooted(g, h)
    && work[h] == WorkOf(g, h)
    && parents[h] == ParentOf(g, h)
  }

  ghost predicate SideOk(world: iset<Block>, g: Hash, h: Hash, node: SideNode) {
    && g.HeaderHash? && h.HeaderHash? && h != g && Rooted(g, h)
    && BlockHash(node.block) == h && node.block in world
    && node == SideNode(h, h.header.prev, HeightOf(g, h), node.block, WorkOf(g, h))
  }

  ghost predicate SidesOk(world: iset<Block>, g: Hash, sides: map<Hash, SideNode>) {
    forall h :: h in sides ==> SideOk(world, g, h, sides[h])
  }

  /** The orphan pool: one parent record and one place in line per block, bounded in number. */
  ghost predicate OrphansOk(world: iset<Block>, byHash: map<Hash, Block>, byParent: map<Hash, Hash>, order: seq<Hash>) {
    && (forall h :: h in byHash ==> BlockHash(byHash[h]) == h && byHash[h] in world)
    && byParent.Keys == byHash.Keys
    && (forall i, j :: 0 <= i < j < |order| ==> order[i] != order[j])
    && (forall h :: h in order <==> h in byHash)
    && |order| <= MAX_ORPHAN_BLOCKS
  }

  lemma InWorldAt(world: iset<Block>, p: seq<Block>)
    requires InWorld(world, p)
    ensures forall i :: 0 <= i < |p| ==> p[i] in world
  {
  }

  // ----- Transitions of the core -----

  lemma BaseHasPath(params: Params, world: iset<Block>, d: Disk, path: seq<Block>, tip: Option<BlockIndex>, clock: Clock)
    requires Base(params, world, d, path, tip, clock)
    ensures HasPath(d, path) && d.heightIndex == HeightMap(path)
  {
    forall i | 0 <= i < |path|
      ensures Stored(d, path, i)
    {
      assert FilesFor(d, path, i);
    }
    hide Stored;
  }

  lemma BaseTip(params: Params, world: iset<Block>, d: Disk, path: seq<Block>, tip: Option<BlockIndex>, clock: Clock)
    requires Base(params, world, d, path, tip, clock)
    ensures d.tip == TipIndex(path) && tip == TipIndex(path)
    ensures |path| == 0 ==> tip == None
    ensures |path| > 0 ==> tip.Some? && tip.value.height == |path| - 1 && tip.value.hash == BlockHash(path[|path| - 1]) && tip.value.hash != ZeroHash
  {
    TipHeight(path);
  }

  lemma PrefixValid(params: Params, path: seq<Block>, clock: Clock)
    requires ValidPath(params, path, clock)
    ensures forall target: seq<Block> :: target <= path ==> ValidPath(params, target, clock)
  {
    forall target: seq<Block> | target <= path
      ensures ValidPath(params, target, clock)
    {
      assert path[..|target|] == target;
      ValidPathPrefix(params, path, |target|, clock, clock);
    }
    hide ValidPath;
  }

  lemma CoreHasPath(params: Params, world: iset<Block>, d: Disk, path: seq<Block>, tip: Option<BlockIndex>, clock: Clock)
    requires Core(params, world, d, path, tip, clock)
    ensures HasPath(d, path)
  {
    forall i | 0 <= i < |path|
      ensures Stored(d, path, i)
    {
      assert FilesFor(d, path, i);
    }
    hide Stored;
  }

  lemma CoreLater(params: Params, world: iset<Block>, d: Disk, path: seq<Block>, tip: Option<BlockIndex>, clock: Clock, later: Clock)
    requires Core(params, world, d, path, tip, clock) && clock <= later
    ensures Core(params, world, d, path, tip, later)
  {
    hide StoreOk, IndexClosed, ExtendsOk, WorldOk;
    ValidPathPrefix(params, path, |path|, clock, later);
    assert path[..|path|] == path;
  }

  /** The work of a hash as the code finds it: remembered, listed, or summed up along the stored
    records; a record that is not there counts nothing. */
  function RecordedWork(d: Disk, memo: map<Hash, nat>, sides: map<Hash, SideNode>, h: Hash): Option<nat>
    decreases Depth(h)
  {
    if h == ZeroHash then Some(0)
    else if h in memo then Some(memo[h])
    else if h in sides then Some(sides[h].chainWork)
    else if h !in d.hashIndex || h !in d.blocks || Depth(d.hashIndex[h].parent) >= Depth(h) then None
    else
      var below := RecordedWork(d, memo, sides, d.hashIndex[h].parent);
      Some((if below.None? then 0 else below.value) + WorkForBits(d.hashIndex[h].bits))
  }

  lemma RecordFacts(d: Disk, g: Hash, h: Hash)
    requires RecordsOk(d, g)
    ensures h in d.hashIndex ==>
      && h.HeaderHash? && Rooted(g, h) && h in d.blocks && d.hashIndex[h] == IndexOf(g, h)
      && d.hashIndex[h].parent == ParentOf(g, h) && d.hashIndex[h].bits == h.header.bits
      && WorkOf(g, h) == WorkForBits(h.header.bits) + WorkOf(g, ParentOf(g, h))
      && Depth(ParentOf(g, h)) < Depth(h)
  {
    hide *;
    if h in d.hashIndex {
      RecordAt(d, g, h);
      IndexParts(g, h);
    }
  }

  lemma RecordAt(d: Disk, g: Hash, h: Hash)
    requires RecordsOk(d, g) && h in d.hashIndex
    ensures h.HeaderHash? && Rooted(g, h) && h in d.blocks && d.hashIndex[h] == IndexOf(g, h)
  {
    assert RecordOk(d, g, h);
    hide Rooted, IndexOf;
  }

  lemma IndexParts(g: Hash, h: Hash)
    requires h.HeaderHash?
    ensures IndexOf(g, h).parent == ParentOf(g, h) && IndexOf(g, h).bits == h.header.bits
    ensures WorkOf(g, h) == WorkForBits(h.header.bits) + WorkOf(g, ParentOf(g, h))
    ensures Depth(ParentOf(g, h)) < Depth(h)
    ensures ParentOf(g, h) == ZeroHash || (h != g && ParentOf(g, h) == h.header.prev)
  {
    hide WorkForBits;
  }

  /** With no gap in the records, what is found is the sum of work along the parents. */
  lemma {:induction false} WorkFound(d: Disk, g: Hash, memo: map<Hash, nat>, sides: map<Hash, SideNode>, h: Hash)
    requires RecordsOk(d, g) && NoGap(d, g)
    requires forall x :: x in memo ==> memo[x] == WorkOf(g, x)
    requires forall x :: x in sides ==> sides[x].chainWork == WorkOf(g, x)
    requires h == ZeroHash || h in memo || h in sides || h in d.hashIndex
    ensures RecordedWork(d, memo, sides, h) == Some(WorkOf(g, h))
    decreases Depth(h)
  {
    hide *;
    RecordedIs(d, memo, sides, h);
    if h == ZeroHash {
      assert WorkOf(g, h) == 0 by {
        NoWork(g);
      }
    } else if h !in memo && h !in sides {
      RecordFacts(d, g, h);
      IndexParts(g, h);
      ParentStored(d, g, h);
      WorkFound(d, g, memo, sides, ParentOf(g, h));
    }
  }

  lemma NoWork(g: Hash)
    ensures WorkOf(g, ZeroHash) == 0
  {
  }

  lemma ParentStored(d: Disk, g: Hash, h: Hash)
    requires NoGap(d, g) && h in d.hashIndex && h.HeaderHash?
    ensures h != g ==> h.header.prev in d.hashIndex
  {
  }

  /** A valid extension: the world hypothesis makes it fresh, and it keeps the path valid. */
  lemma ExtensionFresh(params: Params, world: iset<Block>, d: Disk, path: seq<Block>, tip: Option<BlockIndex>, clock: Clock, b: Block)
    requires Core(params, world, d, path, tip, clock) && b in world
    requires ExtendsOk(params, path, b, clock)
    ensures Linked(path + [b]) && InWorld(world, path + [b]) && ValidPath(params, path + [b], clock)
    ensures Fresh(Replay(path), b.txs)
  {
    var whole := path + [b];
    ValidPathAppend(params, path, b, clock);
    ValidPathFacts(params, whole, clock);
    assert InWorld(world, whole);
    RootAppend(path, b);
    WorldCoinbases(params, world, RootOf(path), whole, clock);
    LastBlockIsFresh(params.txRules, whole);
    assert whole[..|path|] == path;
    hide *;
  }

  lemma CoreConnect(params: Params, world: iset<Block>, d: Disk, path: seq<Block>, tip: Option<BlockIndex>, clock: Clock, b: Block, diff: Diff)
    requires Core(params, world, d, path, tip, clock) && b in world
    requires ExtendsOk(params, path, b, clock) && Exact(Replay(path), b.txs, |path|, diff)
    ensures var idx := IndexOf(RootOf(path + [b]), BlockHash(b));
      Core(params, world, Saved(d, b, idx, diff), path + [b], Some(idx), clock)
  {
    ExtensionFresh(params, world, d, path, tip, clock, b);
    SavedOk(d, path, b, diff);
    SavedClosed(d, path, b, diff);
    RootAppend(path, b);
    WorldNext(params, world, path, b);
    hide StoreOk, IndexClosed, ValidPath, WorldOk, InWorld, Linked, Exact, Fresh, Saved, RootOf;
  }

  /** The hypothesis narrows to the first block once there is one. */
  lemma WorldNext(params: Params, world: iset<Block>, path: seq<Block>, b: Block)
    requires WorldOk(params, world, RootOf(path))
    ensures WorldOk(params, world, RootOf(path + [b]))
  {
    RootAppend(path, b);
    hide ValidPath, InWorld, CoinbasesDistinct;
  }

  lemma CoreDisconnect(params: Params, world: iset<Block>, d: Disk, path: seq<Block>, tip: Option<BlockIndex>, clock: Clock)
    requires Core(params, world, d, path, tip, clock) && |path| > 1
    ensures TipOf(path) in d.undo && |path| - 2 in d.heightIndex
    ensures var front := path[..|path| - 1];
      var prev := d.heightIndex[|path| - 2];
      && prev == IndexOf(RootOf(front), TipOf(front))
      && RootOf(front) == RootOf(path)
      && TipOf(front) == path[|path| - 1].header.prev
      && Core(params, world, Disconnected(d, prev, d.undo[TipOf(path)]), front, Some(prev), clock)
  {
    hide StoreOk, IndexClosed, ValidPath, WorldOk, Linked, Fresh, TxsValid, IndexOf, CoinbasesDistinct, ApplyBlock, Replay;
    var front, n := path[..|path| - 1], |path|;
    ValidPathFacts(params, path, clock);
    WorldCoinbases(params, world, RootOf(path), path, clock);
    NextOk(params.txRules, path, n - 1);
    DisconnectedOk(d, path);
    ValidPathPrefix(params, path, n - 1, clock, clock);
    ClosedDisconnect(d, d.heightIndex[n - 2], d.undo[TipOf(path)], RootOf(path));
    FrontEnds(path);
    hide Disconnected, BlockTxsOk, Sane;
  }

  lemma WorldCoinbases(params: Params, world: iset<Block>, g: Hash, path: seq<Block>, clock: Clock)
    requires WorldOk(params, world, g) && InWorld(world, path) && ValidPath(params, path, clock) && Begins(path, g)
    ensures CoinbasesDistinct(path)
  {
    hide ValidPath, InWorld, CoinbasesDistinct, Begins;
  }

  lemma FrontEnds(path: seq<Block>)
    requires |path| > 1 && Linked(path)
    ensures var front := path[..|path| - 1];
      && RootOf(front) == RootOf(path) && TipOf(front) == path[|path| - 1].header.prev
      && TipIndex(front) == Some(IndexOf(RootOf(front), TipOf(front)))
  {
  }

  lemma ClosedDisconnect(d: Disk, prev: BlockIndex, undo: UndoData, g: Hash)
    requires IndexClosed(d, g)
    ensures IndexClosed(Disconnected(d, prev, undo), g)
  {
    forall h | h in d.hashIndex
      ensures EntryClosed(Disconnected(d, prev, undo), g, h)
    {
      assert EntryClosed(d, g, h);
    }
    hide EntryClosed;
  }

  /** Re-validation cannot fail: a block of a valid path is acceptable again, any time later. */
  lemma StillOk(params: Params, path: seq<Block>, i: nat, clock: Clock, later: Clock)
    requires ValidPath(params, path, clock) && 0 < i < |path| && clock <= later
    ensures BlockOk(params, path[..i], path[i], later)
  {
    assert ExtendsOk(params, path[..i], path[i], clock);
    hide RequiredBits, MedianTime, BlockTxsOk, CheckProofOfWork, ValidPath, Replay;
  }

  lemma RecordedIs(d: Disk, memo: map<Hash, nat>, sides: map<Hash, SideNode>, h: Hash)
    ensures h == ZeroHash ==> RecordedWork(d, memo, sides, h) == Some(0)
    ensures h != ZeroHash && h in memo ==> RecordedWork(d, memo, sides, h) == Some(memo[h])
    ensures h != ZeroHash && h !in memo && h in sides ==> RecordedWork(d, memo, sides, h) == Some(sides[h].chainWork)
    ensures h != ZeroHash && h !in memo && h !in sides && (h !in d.hashIndex || h !in d.blocks) ==>
      RecordedWork(d, memo, sides, h) == None
    ensures (h != ZeroHash && h !in memo && h !in sides && h in d.hashIndex && h in d.blocks
             && Depth(d.hashIndex[h].parent) < Depth(h)) ==>
      var below := RecordedWork(d, memo, sides, d.hashIndex[h].parent);
      RecordedWork(d, memo, sides, h) == Some((if below.None? then 0 else below.value) + WorkForBits(d.hashIndex[h].bits))
  {
  }

  function ActiveHashes(path: seq<Block>, n: nat): set<Hash>
    requires n <= |path|
  {
    set i | 0 <= i < n :: BlockHash(path[i])
  }

  lemma NoneActive(path: seq<Block>)
    ensures ActiveHashes(path, 0) == {}
  {
  }

  lemma ActiveStep(path: seq<Block>, n: nat)
    requires n < |path|
    ensures ActiveHashes(path, n + 1) == ActiveHashes(path, n) + {BlockHash(path[n])}
  {
  }

  /** The work of the first block is part of every other's. */
  lemma {:induction false} WorkAboveRoot(g: Hash, h: Hash)
    requires g.HeaderHash? && Rooted(g, h)
    ensures WorkOf(g, h) >= WorkForBits(g.header.bits)
  {
    if h != g {
      WorkAboveRoot(g, h.header.prev);
    }
  }

  /** On a store just opened, a stored block without its parent is given its own work alone, which
    is less than the sum along its parents. */
  lemma GapCountsNothing(params: Params, world: iset<Block>, d: Disk, path: seq<Block>, tip: Option<BlockIndex>, clock: Clock,
                         memo: map<Hash, nat>, x: Hash)
    requires Base(params, world, d, path, tip, clock) && memo.Keys == ActiveHashes(path, |path|)
    requires x in d.hashIndex && x.HeaderHash? && x != RootOf(path) && x.header.prev !in d.hashIndex
    ensures RecordedWork(d, memo, map[], x) == Some(WorkForBits(x.header.bits))
    ensures WorkForBits(x.header.bits) < WorkOf(RootOf(path), x)
  {
    hide *;
    var g := RootOf(path);
    BaseFirst(params, world, d, path, tip, clock);
    BaseActive(params, world, d, path, tip, clock);
    RecordFacts(d, g, x);
    GapParts(g, x);
    ActiveAre(path);
    assert x !in memo && x.header.prev !in memo by {
      if x in memo {
        ParentActive(params, world, d, path, tip, clock, x);
      }
    }
    RecordedIs(d, memo, map[], x);
    RecordedIs(d, memo, map[], x.header.prev);
    WorkAboveRoot(g, x.header.prev);
  }

  lemma GapParts(g: Hash, x: Hash)
    requires x.HeaderHash? && x != g && Rooted(g, x)
    ensures ParentOf(g, x) == x.header.prev && Rooted(g, x.header.prev)
    ensures g.HeaderHash? ==> x.header.prev.HeaderHash?
  {
  }

  lemma ActiveAre(path: seq<Block>)
    ensures forall h :: h in ActiveHashes(path, |path|) <==> exists i :: 0 <= i < |path| && BlockHash(path[i]) == h
  {
  }

  lemma BaseFirst(params: Params, world: iset<Block>, d: Disk, path: seq<Block>, tip: Option<BlockIndex>, clock: Clock)
    requires Base(params, world, d, path, tip, clock)
    ensures RecordsOk(d, RootOf(path))
    ensures |path| == 0 ==> d.hashIndex == map[]
    ensures |path| > 0 ==> RootOf(path).HeaderHash? && WorkForBits(RootOf(path).header.bits) >= 2
  {
    hide RecordsOk, StoreOk, WorldOk, InWorld;
    if |path| > 0 {
      ValidPathFacts(params, path, clock);
      WorkAtLeastTwo(params.powValue(BlockHash(path[0])), path[0].header.bits);
    }
    hide ValidPath, CheckProofOfWork, WorkForBits;
  }

  /** Active blocks are stored. */
  lemma BaseActive(params: Params, world: iset<Block>, d: Disk, path: seq<Block>, tip: Option<BlockIndex>, clock: Clock)
    requires Base(params, world, d, path, tip, clock)
    ensures Linked(path) && forall i :: 0 <= i < |path| ==> BlockHash(path[i]) in d.hashIndex
  {
    forall i | 0 <= i < |path|
      ensures BlockHash(path[i]) in d.hashIndex
    {
      assert FilesFor(d, path, i);
    }
  }

  lemma ParentActive(params: Params, world: iset<Block>, d: Disk, path: seq<Block>, tip: Option<BlockIndex>, clock: Clock, x: Hash)
    requires Base(params, world, d, path, tip, clock) && x in ActiveHashes(path, |path|) && x != RootOf(path) && x.HeaderHash?
    ensures x.header.prev in d.hashIndex
  {
    BaseActive(params, world, d, path, tip, clock);
    hide Base;
    var i :| 0 <= i < |path| && BlockHash(path[i]) == x;
    assert i > 0 && path[i].header.prev == BlockHash(path[i - 1]);
  }

  /** On a store just opened, the work found is right for every stored block exactly when no stored
    block lacks its parent. */
  lemma WorkFoundIff(params: Params, world: iset<Block>, d: Disk, path: seq<Block>, tip: Option<BlockIndex>, clock: Clock,
                     memo: map<Hash, nat>, parents: map<Hash, Hash>)
    requires Base(params, world, d, path, tip, clock)
    requires MemoOk(RootOf(path), memo, parents) && memo.Keys == ActiveHashes(path, |path|)
    ensures (forall h :: h in d.hashIndex ==> RecordedWork(d, memo, map[], h) == Some(WorkOf(RootOf(path), h)))
       <==> NoGap(d, RootOf(path))
  {
    hide *;
    var g := RootOf(path);
    BaseFirst(params, world, d, path, tip, clock);
    MemoFacts(g, memo, parents);
    if NoGap(d, g) {
      forall h | h in d.hashIndex
        ensures RecordedWork(d, memo, map[], h) == Some(WorkOf(g, h))
      {
        WorkFound(d, g, memo, map[], h);
      }
    } else {
      var x := GapAt(d, g);
      GapCountsNothing(params, world, d, path, tip, clock, memo, x);
    }
  }

  lemma GapAt(d: Disk, g: Hash) returns (x: Hash)
    requires !NoGap(d, g)
    ensures x in d.hashIndex && x.HeaderHash? && x != g && x.header.prev !in d.hashIndex
  {
    x :| x in d.hashIndex && x.HeaderHash? && x != g && x.header.prev !in d.hashIndex;
  }

  lemma NothingYet(world: iset<Block>, g: Hash)
    ensures SidesOk(world, g, map[]) && OrphansOk(world, map[], map[], [])
  {
  }

  lemma MemoEmpty(g: Hash)
    ensures MemoOk(g, map[], map[])
  {
  }

  lemma MemoRoot(g: Hash, work: map<Hash, nat>, parents: map<Hash, Hash>)
    requires MemoOk(g, work, parents)
    ensures (work == map[] && parents == map[]) || g.HeaderHash?
  {
    if work != map[] {
      var h :| h in work;
      assert MemoEntryOk(g, work, parents, h);
    }
  }

  lemma MemoFacts(g: Hash, work: map<Hash, nat>, parents: map<Hash, Hash>)
    requires MemoOk(g, work, parents)
    ensures forall h :: h in work ==> work[h] == WorkOf(g, h)
  {
    forall h | h in work
      ensures work[h] == WorkOf(g, h)
    {
      assert MemoEntryOk(g, work, parents, h);
    }
  }

  lemma SideFacts(world: iset<Block>, g: Hash, sides: map<Hash, SideNode>)
    requires SidesOk(world, g, sides)
    ensures forall h :: h in sides ==> sides[h].chainWork == WorkOf(g, h)
  {
    forall h | h in sides
      ensures sides[h].chainWork == WorkOf(g, h)
    {
      assert SideOk(world, g, h, sides[h]);
    }
  }

  lemma MemoPut(g: Hash, work: map<Hash, nat>, parents: map<Hash, Hash>, h: Hash)
    requires MemoOk(g, work, parents) && g.HeaderHash? && h.HeaderHash? && Rooted(g, h)
    ensures MemoOk(g, work[h := WorkOf(g, h)], parents[h := ParentOf(g, h)])
  {
    var work', parents' := work[h := WorkOf(g, h)], parents[h := ParentOf(g, h)];
    forall x | x in work'
      ensures MemoEntryOk(g, work', parents', x)
    {
      assert x != h ==> MemoEntryOk(g, work, parents, x);
      hide Rooted, WorkOf, ParentOf;
    }
  }

  lemma MemoDrop(g: Hash, work: map<Hash, nat>, parents: map<Hash, Hash>, h: Hash)
    requires MemoOk(g, work, parents)
    ensures MemoOk(g, work - {h}, parents - {h})
  {
    var work', parents' := work - {h}, parents - {h};
    forall x | x in work'
      ensures MemoEntryOk(g, work', parents', x)
    {
      assert MemoEntryOk(g, work, parents, x);
      hide Rooted, WorkOf, ParentOf;
    }
  }

  /** Connecting either keeps the root or starts from an empty memo. */
  lemma MemoConnect(path: seq<Block>, b: Block, work: map<Hash, nat>, parents: map<Hash, Hash>)
    requires MemoOk(RootOf(path), work, parents) && Linked(path + [b])
    ensures var g, h := RootOf(path + [b]), BlockHash(b);
      MemoOk(g, work[h := WorkOf(g, h)], parents[h := ParentOf(g, h)])
  {
    OnPath(path + [b], |path|);
    RootAppend(path, b);
    MemoRoot(RootOf(path), work, parents);
    MemoPut(RootOf(path + [b]), work, parents, BlockHash(b));
  }

  lemma SidesConnect(world: iset<Block>, path: seq<Block>, b: Block, sides: map<Hash, SideNode>)
    requires SidesOk(world, RootOf(path), sides)
    ensures SidesOk(world, RootOf(path + [b]), sides)
  {
    RootAppend(path, b);
    if sides != map[] {
      var h :| h in sides;
      assert SideOk(world, RootOf(path), h, sides[h]);
    }
  }

  /** The median-time loop reads the same times as the window of recent entries. */
  lemma TimesMatch(path: seq<Block>, times: seq<int>)
    requires |times| == if |path| < MTP_WINDOW then |path| else MTP_WINDOW
    requires forall k :: 0 <= k < |times| ==> times[k] == path[|path| - 1 - k].header.time
    ensures times == TimesOf(Recent(HeadersOf(path), DGW_PAST_BLOCKS))
  {
    var hs := HeadersOf(path);
    var recent := Recent(hs, DGW_PAST_BLOCKS);
    assert forall i :: 0 <= i < |recent| ==> recent[i] == EntryAt(hs, |hs| - 1 - i);
  }

  /** The header rules, in terms of the block below. */
  lemma HeaderParts(params: Params, path: seq<Block>, h: Header, now: Clock)
    ensures var recent := Recent(HeadersOf(path), DGW_PAST_BLOCKS);
      HeaderOk(params, HeadersOf(path), h, now) <==>
        && (|path| > 0 ==> h.prev == BlockHash(path[|path| - 1]) && h.time > MedianTime(recent))
        && h.time <= now + MAX_FUTURE_DRIFT
        && h.bits == RequiredBits(params, recent)
        && CheckProofOfWork(params.powValue(HeaderHash(h)), h.bits)
  {
    HeadersTip(path);
    hide Recent, MedianTime, RequiredBits, CheckProofOfWork;
  }

  lemma MedianMatch(path: seq<Block>, times: seq<int>)
    requires |path| > 0 && |times| == if |path| < MTP_WINDOW then |path| else MTP_WINDOW
    requires forall k :: 0 <= k < |times| ==> times[k] == path[|path| - 1 - k].header.time
    ensures |times| > 0 && Median(times) == MedianTime(Recent(HeadersOf(path), DGW_PAST_BLOCKS))
  {
    TimesMatch(path, times);
    RecentNonEmpty(HeadersOf(path));
    hide Recent, Sort, Median, HeadersOf, TimesOf;
  }

  function Without(xs: seq<Hash>, h: Hash): seq<Hash> {
    if |xs| == 0 then [] else if xs[0] == h then xs[1..] else [xs[0]] + Without(xs[1..], h)
  }

  method RemoveFirst(xs: seq<Hash>, h: Hash) returns (r: seq<Hash>)
    ensures r == Without(xs, h)
  {
    for i := 0 to |xs|
      invariant forall j :: 0 <= j < i ==> xs[j] != h
    {
      if xs[i] == h {
        WithoutAt(xs, h, i);
        return xs[..i] + xs[i + 1..];
      }
    }
    WithoutNone(xs, h);
    r := xs;
  }

  lemma {:induction false} WithoutAt(xs: seq<Hash>, h: Hash, i: nat)
    requires i < |xs| && xs[i] == h && forall j :: 0 <= j < i ==> xs[j] != h
    ensures Without(xs, h) == xs[..i] + xs[i + 1..]
  {
    if i > 0 {
      WithoutAt(xs[1..], h, i - 1);
    }
  }

  lemma {:induction false} WithoutNone(xs: seq<Hash>, h: Hash)
    requires h !in xs
    ensures Without(xs, h) == xs
  {
    if |xs| > 0 {
      WithoutNone(xs[1..], h);
    }
  }

  lemma {:induction false} WithoutFacts(xs: seq<Hash>, h: Hash)
    ensures forall x :: x in Without(xs, h) ==> x in xs
    ensures forall x :: x in xs && x != h ==> x in Without(xs, h)
  {
    if |xs| > 0 {
      WithoutFacts(xs[1..], h);
      assert xs == [xs[0]] + xs[1..];
    }
  }

  /** Removing from a list without repeats. */
  lemma {:induction false} WithoutDistinct(xs: seq<Hash>, h: Hash)
    requires h in xs && forall i, j :: 0 <= i < j < |xs| ==> xs[i] != xs[j]
    ensures var r := Without(xs, h);
      |r| == |xs| - 1 && h !in r && forall i, j :: 0 <= i < j < |r| ==> r[i] != r[j]
  {
    if xs[0] != h {
      WithoutDistinct(xs[1..], h);
      WithoutFacts(xs[1..], h);
      assert xs[0] !in xs[1..];
      assert xs[0] !in Without(xs[1..], h);
    }
  }

  lemma OrphanDropped(world: iset<Block>, byHash: map<Hash, Block>, byParent: map<Hash, Hash>, order: seq<Hash>, hash: Hash)
    requires OrphansOk(world, byHash, byParent, order) && hash in byHash
    ensures OrphansOk(world, byHash - {hash}, byParent - {hash}, Without(order, hash))
    ensures hash in byParent && |Without(order, hash)| == |order| - 1
  {
    WithoutDistinct(order, hash);
    WithoutFacts(order, hash);
  }

  lemma NotFiled(world: iset<Block>, byHash: map<Hash, Block>, byParent: map<Hash, Hash>, order: seq<Hash>, hash: Hash)
    requires OrphansOk(world, byHash, byParent, order) && hash !in byHash
    ensures Without(order, hash) == order && byHash - {hash} == byHash && byParent - {hash} == byParent
  {
    WithoutNone(order, hash);
  }

  lemma OrphanAdded(world: iset<Block>, byHash: map<Hash, Block>, byParent: map<Hash, Hash>, order: seq<Hash>, hash: Hash, parent: Hash, block: Block)
    requires OrphansOk(world, byHash, byParent, order) && hash !in byHash && |order| < MAX_ORPHAN_BLOCKS
    requires BlockHash(block) == hash && block in world
    ensures OrphansOk(world, byHash[hash := block], byParent[hash := parent], order + [hash])
  {
    assert hash !in order;
  }

  /** The child lists once `hash` left its parent's; an empty list goes. */
  function Unfiled(byPrev: map<Hash, seq<Hash>>, parent: Hash, hash: Hash): map<Hash, seq<Hash>> {
    if parent == ZeroHash then byPrev
    else
      var children := Without(if parent in byPrev then byPrev[parent] else [], hash);
      if |children| == 0 then byPrev - {parent} else byPrev[parent := children]
  }

  lemma WaitingIs(byPrev: map<Hash, seq<Hash>>, h: Hash)
    ensures WaitingFor(byPrev, h) == if h in byPrev then byPrev[h] else []
  {
  }

  function WaitingFor(byPrev: map<Hash, seq<Hash>>, h: Hash): seq<Hash> {
    if h in byPrev then byPrev[h] else []
  }

  /** A waiting orphan that the tip can take. */
  ghost predicate Eligible(params: Params, pool: map<Hash, Block>, path: seq<Block>, clock: Clock, x: Hash) {
    && x in pool && |path| > 0
    && pool[x].header.prev == TipOf(path)
    && BlockOk(params, path, pool[x], clock)
  }

  ghost predicate NoneEligible(params: Params, pool: map<Hash, Block>, path: seq<Block>, clock: Clock, xs: seq<Hash>) {
    forall x :: x in xs ==> !Eligible(params, pool, path, clock, x)
  }

  /** The chain grew by blocks that waited in `pool` and are not in `left`, what remains of it. */
  ghost predicate FromPool(before: seq<Block>, after: seq<Block>, pool: map<Hash, Block>, left: map<Hash, Block>) {
    && before <= after && left.Keys <= pool.Keys
    && (forall h :: h in left ==> left[h] == pool[h])
    && forall i :: |before| <= i < |after| ==>
         BlockHash(after[i]) in pool && pool[BlockHash(after[i])] == after[i] && BlockHash(after[i]) !in left
  }

  lemma FromPoolSelf(path: seq<Block>, pool: map<Hash, Block>)
    ensures FromPool(path, path, pool, pool)
  {
  }

  lemma FromPoolGrows(before: seq<Block>, after: seq<Block>, pool: map<Hash, Block>, left: map<Hash, Block>)
    requires FromPool(before, after, pool, left)
    ensures before <= after && left.Keys <= pool.Keys
  {
  }

  lemma FromPoolTrans(a: seq<Block>, b: seq<Block>, c: seq<Block>, p: map<Hash, Block>, q: map<Hash, Block>, r: map<Hash, Block>)
    requires FromPool(a, b, p, q) && FromPool(b, c, q, r)
    ensures FromPool(a, c, p, r) && a <= b && b <= c
    ensures c == a ==> b == a
  {
    forall i | |a| <= i < |c|
      ensures BlockHash(c[i]) in p && p[BlockHash(c[i])] == c[i] && BlockHash(c[i]) !in r
    {
      assert i < |b| ==> b[i] == c[i];
    }
  }

  /** What a listed block loses its place to: `pool` lost orphans down to `left`, and they left the list. */
  function Unlisted(sides: map<Hash, SideNode>, pool: map<Hash, Block>, left: map<Hash, Block>): map<Hash, SideNode> {
    sides - (pool.Keys - left.Keys)
  }

  lemma UnlistedSelf(sides: map<Hash, SideNode>, pool: map<Hash, Block>)
    ensures Unlisted(sides, pool, pool) == sides
  {
    assert pool.Keys - pool.Keys == {};
  }

  lemma UnlistedStep(sides: map<Hash, SideNode>, pool: map<Hash, Block>, left: map<Hash, Block>, x: Hash)
    requires x in left && left.Keys <= pool.Keys
    ensures Unlisted(sides, pool, left) - {x} == Unlisted(sides, pool, left - {x})
  {
    assert pool.Keys - (left - {x}).Keys == (pool.Keys - left.Keys) + {x};
  }

  lemma UnlistedTrans(sides: map<Hash, SideNode>, a: map<Hash, Block>, b: map<Hash, Block>, c: map<Hash, Block>)
    requires c.Keys <= b.Keys <= a.Keys
    ensures Unlisted(Unlisted(sides, a, b), b, c) == Unlisted(sides, a, c)
  {
    assert (a.Keys - b.Keys) + (b.Keys - c.Keys) == a.Keys - c.Keys;
  }

  /** The lists lost no orphan that is still in the pool. */
  ghost predicate Keeps(before: map<Hash, seq<Hash>>, after: map<Hash, seq<Hash>>, pool: map<Hash, Block>) {
    && after.Keys <= before.Keys
    && forall h, x :: x in WaitingFor(before, h) && x in pool ==> x in WaitingFor(after, h)
  }

  /** Orphans only leave the pool for the active chain. */
  ghost predicate LeftForChain(pool: map<Hash, Block>, left: map<Hash, Block>, path: seq<Block>) {
    && left.Keys <= pool.Keys && (forall h :: h in left ==> left[h] == pool[h])
    && forall h :: h in pool && h !in left ==> IsActive(path, h)
  }

  lemma LeftSelf(pool: map<Hash, Block>, path: seq<Block>)
    ensures LeftForChain(pool, pool, path)
  {
  }

  lemma LeftStep(pool: map<Hash, Block>, left: map<Hash, Block>, here: seq<Block>, x: Hash, b: Block)
    requires LeftForChain(pool, left, here) && x == BlockHash(b)
    ensures LeftForChain(pool, left - {x}, here + [b])
  {
    MoreActive(here, b, []);
    assert x in [] + [x];
    forall h | h in pool && h !in left
      ensures IsActive(here + [b], h)
    {
      StillActive(here, here + [b], h);
    }
    hide IsActive;
  }

  lemma LeftTrans(a: map<Hash, Block>, b: map<Hash, Block>, c: map<Hash, Block>, here: seq<Block>, path: seq<Block>)
    requires LeftForChain(a, b, here) && LeftForChain(b, c, path) && here <= path
    ensures LeftForChain(a, c, path)
  {
    forall h | h in a && h !in b
      ensures IsActive(path, h)
    {
      StillActive(here, path, h);
    }
    hide IsActive;
  }

  lemma KeepsKeys(before: map<Hash, seq<Hash>>, after: map<Hash, seq<Hash>>, pool: map<Hash, Block>)
    requires Keeps(before, after, pool)
    ensures after.Keys <= before.Keys
  {
  }

  lemma MoreActive(path: seq<Block>, b: Block, accepted: seq<Hash>)
    requires forall a :: a in accepted ==> IsActive(path, a)
    ensures forall a :: a in accepted + [BlockHash(b)] ==> IsActive(path + [b], a)
    ensures TipOf(path + [b]) in accepted + [BlockHash(b)] && |path + [b]| > |path|
  {
    assert (path + [b])[|path|] == b;
    forall a | a in accepted
      ensures IsActive(path + [b], a)
    {
      StillActive(path, path + [b], a);
    }
  }

  lemma KeepsSelf(lists: map<Hash, seq<Hash>>, pool: map<Hash, Block>)
    ensures Keeps(lists, lists, pool)
  {
  }

  lemma KeepsTrans(a: map<Hash, seq<Hash>>, b: map<Hash, seq<Hash>>, c: map<Hash, seq<Hash>>, p: map<Hash, Block>, q: map<Hash, Block>)
    requires Keeps(a, b, p) && Keeps(b, c, q) && q.Keys <= p.Keys
    ensures Keeps(a, c, q)
  {
    hide WaitingFor;
  }

  lemma UnfiledKeeps(lists: map<Hash, seq<Hash>>, parent: Hash, hash: Hash, pool: map<Hash, Block>)
    requires hash !in pool
    ensures Keeps(lists, Unfiled(lists, parent, hash), pool)
  {
    WithoutFacts(WaitingFor(lists, parent), hash);
    hide Without;
    var after := Unfiled(lists, parent, hash);
    var children := Without(WaitingFor(lists, parent), hash);
    assert |children| > 0 ==> children[0] in WaitingFor(lists, parent);
    forall h, x | x in WaitingFor(lists, h) && x in pool
      ensures x in WaitingFor(after, h)
    {
      assert x != hash;
      assert h == parent ==> x in children;
    }
  }

  /** On the way to rest: every processed or queued hash is active, the lists still to come are
    complete, and the list under the tip is still to come unless no orphan in it fits. */
  ghost predicate Settling(params: Params, lists0: map<Hash, seq<Hash>>, start: Clock, path: seq<Block>, pool: map<Hash, Block>,
                           lists: map<Hash, seq<Hash>>, queue: seq<Hash>, done: set<Hash>)
  {
    && |path| > 0
    && (forall d :: d in done || d in queue ==> IsActive(path, d))
    && (forall h, x :: h !in done && x in WaitingFor(lists0, h) && x in pool ==> x in WaitingFor(lists, h))
    && ((TipOf(path) in queue && TipOf(path) !in done) || NoneEligible(params, pool, path, start, WaitingFor(lists0, TipOf(path))))
  }

  lemma SettlingStart(params: Params, lists: map<Hash, seq<Hash>>, start: Clock, path: seq<Block>, pool: map<Hash, Block>)
    requires |path| > 0
    ensures Settling(params, lists, start, path, pool, lists, [TipOf(path)], {})
  {
    hide NoneEligible, WaitingFor;
    assert BlockHash(path[|path| - 1]) == TipOf(path);
  }

  lemma SettlingStep(params: Params, lists0: map<Hash, seq<Hash>>, start: Clock, here: seq<Block>, left: map<Hash, Block>,
                     lists: map<Hash, seq<Hash>>, queue: seq<Hash>, done: set<Hash>, when: Clock,
                     path: seq<Block>, pool: map<Hash, Block>, lists': map<Hash, seq<Hash>>, accepted: seq<Hash>)
    requires |queue| > 0 && Settling(params, lists0, start, here, left, lists, queue, done) && start <= when
    requires here <= path && Linked(path) && pool.Keys <= left.Keys && Keeps(lists, lists', pool)
    requires forall a :: a in accepted ==> IsActive(path, a)
    requires path != here ==> TipOf(path) in accepted
    requires path == here ==> pool == left && NoneEligible(params, left, here, when, WaitingFor(lists, queue[0]))
    ensures Settling(params, lists0, start, path, pool, lists' - {queue[0]}, queue[1..] + accepted, done + {queue[0]})
  {
    hide *;
    var cur, queue', done' := queue[0], queue[1..] + accepted, done + {queue[0]};
    SettlingParts(params, lists0, start, here, left, lists, queue, done);
    QueueNext(queue, accepted);
    forall d | d in done' || d in queue'
      ensures IsActive(path, d)
    {
      if d !in accepted {
        StillActive(here, path, d);
      }
    }
    ListsNext(lists0, lists, lists', left, pool, done, cur);
    if path != here {
      NewTipIsNew(here, path);
    } else if TipOf(path) == cur && cur !in done {
      AllTried(params, pool, path, when, WaitingFor(lists0, cur), WaitingFor(lists, cur));
      NoneEarlier(params, pool, path, start, when, WaitingFor(lists0, cur));
    }
    SettlingParts(params, lists0, start, path, pool, lists' - {cur}, queue', done');
  }

  lemma SettlingParts(params: Params, lists0: map<Hash, seq<Hash>>, start: Clock, path: seq<Block>, pool: map<Hash, Block>,
                      lists: map<Hash, seq<Hash>>, queue: seq<Hash>, done: set<Hash>)
    ensures Settling(params, lists0, start, path, pool, lists, queue, done) <==>
      && |path| > 0
      && (forall d :: d in done || d in queue ==> IsActive(path, d))
      && (forall h, x :: h !in done && x in WaitingFor(lists0, h) && x in pool ==> x in WaitingFor(lists, h))
      && ((TipOf(path) in queue && TipOf(path) !in done) || NoneEligible(params, pool, path, start, WaitingFor(lists0, TipOf(path))))
  {
    hide IsActive, WaitingFor, NoneEligible, TipOf;
  }

  lemma QueueNext(queue: seq<Hash>, accepted: seq<Hash>)
    requires |queue| > 0
    ensures queue[0] in queue && forall x :: x in queue[1..] + accepted <==> x in queue[1..] || x in accepted
    ensures forall x :: x in queue <==> x == queue[0] || x in queue[1..]
  {
    assert queue == [queue[0]] + queue[1..];
  }

  lemma ListsNext(lists0: map<Hash, seq<Hash>>, lists: map<Hash, seq<Hash>>, lists': map<Hash, seq<Hash>>,
                  left: map<Hash, Block>, pool: map<Hash, Block>, done: set<Hash>, cur: Hash)
    requires Keeps(lists, lists', pool) && pool.Keys <= left.Keys
    requires forall h, x :: h !in done && x in WaitingFor(lists0, h) && x in left ==> x in WaitingFor(lists, h)
    ensures forall h, x :: h !in done + {cur} && x in WaitingFor(lists0, h) && x in pool ==> x in WaitingFor(lists' - {cur}, h)
  {
    forall h, x | h !in done + {cur} && x in WaitingFor(lists0, h) && x in pool
      ensures x in WaitingFor(lists' - {cur}, h)
    {
      assert x in WaitingFor(lists, h);
      assert x in WaitingFor(lists', h);
    }
  }

  lemma AllTried(params: Params, pool: map<Hash, Block>, path: seq<Block>, clock: Clock, xs: seq<Hash>, ys: seq<Hash>)
    requires NoneEligible(params, pool, path, clock, ys) && forall x :: x in xs && x in pool ==> x in ys
    ensures NoneEligible(params, pool, path, clock, xs)
  {
    hide BlockOk;
  }

  lemma StillActive(here: seq<Block>, path: seq<Block>, h: Hash)
    requires here <= path && IsActive(here, h)
    ensures IsActive(path, h)
  {
    var i :| 0 <= i < |here| && BlockHash(here[i]) == h;
    assert path[i] == here[i];
  }

  lemma NewTipIsNew(here: seq<Block>, path: seq<Block>)
    requires here <= path && here != path && Linked(path)
    ensures !IsActive(here, TipOf(path))
  {
    if IsActive(here, TipOf(path)) {
      var i :| 0 <= i < |here| && BlockHash(here[i]) == TipOf(path);
      assert path[i] == here[i];
      PathHashesDiffer(path, i, |path| - 1);
    }
  }

  lemma SettlingEnd(params: Params, lists0: map<Hash, seq<Hash>>, start: Clock, path: seq<Block>, pool: map<Hash, Block>,
                    lists: map<Hash, seq<Hash>>, done: set<Hash>)
    requires Settling(params, lists0, start, path, pool, lists, [], done)
    ensures NoneEligible(params, pool, path, start, WaitingFor(lists0, TipOf(path)))
  {
    hide NoneEligible, WaitingFor, IsActive;
  }

  lemma FromPoolStep(a: seq<Block>, b: seq<Block>, p: map<Hash, Block>, q: map<Hash, Block>, x: Hash)
    requires FromPool(a, b, p, q) && x in q && BlockHash(q[x]) == x
    ensures FromPool(a, b + [q[x]], p, q - {x}) && |q - {x}| == |q| - 1
  {
    assert (q - {x}).Keys == q.Keys - {x};
    assert |q - {x}| == |(q - {x}).Keys|;
  }

  lemma BlockOkLater(params: Params, path: seq<Block>, b: Block, clock: Clock, later: Clock)
    requires BlockOk(params, path, b, clock) && clock <= later
    ensures BlockOk(params, path, b, later)
  {
    hide RequiredBits, MedianTime, BlockTxsOk, CheckProofOfWork, Replay, MerkleRoot;
  }

  lemma EligibleIs(params: Params, pool: map<Hash, Block>, path: seq<Block>, clock: Clock, x: Hash)
    ensures Eligible(params, pool, path, clock, x) <==>
      x in pool && |path| > 0 && pool[x].header.prev == TipOf(path) && BlockOk(params, path, pool[x], clock)
  {
    hide BlockOk;
  }

  lemma NotEligible(params: Params, pool: map<Hash, Block>, path: seq<Block>, clock: Clock, x: Hash)
    requires x !in pool || |path| == 0 || pool[x].header.prev != TipOf(path)
    ensures !Eligible(params, pool, path, clock, x)
  {
    hide BlockOk;
  }

  /** The first block that was added has its hash among `xs`. */
  ghost predicate FirstFrom(before: seq<Block>, after: seq<Block>, xs: seq<Hash>) {
    |before| < |after| ==> BlockHash(after[|before|]) in xs
  }

  lemma FirstFromSelf(path: seq<Block>, xs: seq<Hash>)
    ensures FirstFrom(path, path, xs)
  {
  }

  lemma FirstFromGrows(a: seq<Block>, b: seq<Block>, c: seq<Block>, xs: seq<Hash>)
    requires a <= b <= c && FirstFrom(a, b, xs) && (b == a ==> FirstFrom(b, c, xs))
    ensures FirstFrom(a, c, xs)
  {
  }

  /** What was added first out of the pool was eligible when it was added. */
  lemma FirstEligible(params: Params, before: seq<Block>, after: seq<Block>, pool: map<Hash, Block>, left: map<Hash, Block>,
                      clock: Clock, xs: seq<Hash>)
    requires FromPool(before, after, pool, left) && FirstFrom(before, after, xs) && after != before && |before| > 0
    requires ValidPath(params, after, clock)
    ensures !NoneEligible(params, pool, before, clock, xs)
  {
    var n := |before|;
    var x := BlockHash(after[n]);
    assert ExtendsOk(params, after[..n], after[n], clock) && after[..n] == before && pool[x] == after[n];
    hide ValidPath, BlockOk, GenesisOk;
    OkIsLinked(params, before, after[n], clock);
    assert Eligible(params, pool, before, clock, x);
  }

  /** Time only makes more orphans eligible. */
  lemma NoneEarlier(params: Params, pool: map<Hash, Block>, path: seq<Block>, start: Clock, clock: Clock, xs: seq<Hash>)
    requires start <= clock && NoneEligible(params, pool, path, clock, xs)
    ensures NoneEligible(params, pool, path, start, xs)
  {
    forall x | x in xs
      ensures !Eligible(params, pool, path, start, x)
    {
      EligibleIs(params, pool, path, start, x);
      EligibleIs(params, pool, path, clock, x);
      if Eligible(params, pool, path, start, x) {
        BlockOkLater(params, path, pool[x], start, clock);
      }
      hide Eligible, BlockOk;
    }
  }

  lemma AcceptStart(params: Params, pool: map<Hash, Block>, byPrev: map<Hash, seq<Hash>>, path: seq<Block>, clock: Clock, cur: Hash, children: seq<Hash>)
    requires children == if cur in byPrev then byPrev[cur] else []
    ensures children == WaitingFor(byPrev, cur)
    ensures FromPool(path, path, pool, pool) && NoneEligible(params, pool, path, clock, children[..0])
    ensures FirstFrom(path, path, children)
  {
    FromPoolSelf(path, pool);
    hide Eligible;
  }

  lemma AcceptNext(
      params: Params, pool: map<Hash, Block>, base: seq<Block>, start: Clock, here: seq<Block>, left: map<Hash, Block>,
      path: seq<Block>, now: map<Hash, Block>, clock: Clock, children: seq<Hash>, i: nat, took: bool)
    requires i < |children| && start <= clock && FromPool(base, here, pool, left)
    requires here == base ==> left == pool && NoneEligible(params, pool, base, start, children[..i])
    requires took <==> Eligible(params, left, here, clock, children[i])
    requires took ==>
      && children[i] in left && path == here + [left[children[i]]] && now == left - {children[i]}
      && BlockHash(left[children[i]]) == children[i]
    requires !took ==> path == here && now == left
    requires FirstFrom(base, here, children)
    ensures FromPool(base, path, pool, now) && |now| == |left| - (if took then 1 else 0)
    ensures path == base ==> !took && now == pool && NoneEligible(params, pool, base, start, children[..i + 1])
    ensures FirstFrom(base, path, children)
  {
    hide *;
    FromPoolGrows(base, here, pool, left);
    if took {
      FromPoolStep(base, here, pool, left, children[i]);
      FirstTaken(base, here, left[children[i]], children, i);
    } else if here == base {
      NoneMore(params, pool, base, start, clock, children, i);
    }
  }

  lemma FirstTaken(base: seq<Block>, here: seq<Block>, b: Block, children: seq<Hash>, i: nat)
    requires base <= here && FirstFrom(base, here, children) && i < |children| && BlockHash(b) == children[i]
    ensures FirstFrom(base, here + [b], children)
  {
  }

  lemma NoneMore(params: Params, pool: map<Hash, Block>, path: seq<Block>, start: Clock, clock: Clock, children: seq<Hash>, i: nat)
    requires i < |children| && start <= clock && NoneEligible(params, pool, path, start, children[..i])
    requires !Eligible(params, pool, path, clock, children[i])
    ensures NoneEligible(params, pool, path, start, children[..i + 1])
  {
    var x := children[i];
    if Eligible(params, pool, path, start, x) {
      BlockOkLater(params, path, pool[x], start, clock);
    }
    hide Eligible;
    assert forall y :: y in children[..i + 1] ==> y == x || y in children[..i];
  }

  lemma AcceptEnd(byPrev: map<Hash, seq<Hash>>, cur: Hash, children: seq<Hash>)
    requires children == WaitingFor(byPrev, cur)
    ensures children[..|children|] == WaitingFor(byPrev, cur)
  {
    assert children[..|children|] == children;
  }

  /** No live orphan is filed under `h`. */
  ghost predicate Quiet(byHash: map<Hash, Block>, byPrev: map<Hash, seq<Hash>>, h: Hash) {
    h in byPrev ==> forall x :: x in byPrev[h] ==> x !in byHash
  }

  lemma SidesPut(world: iset<Block>, g: Hash, sides: map<Hash, SideNode>, h: Hash, node: SideNode)
    requires SidesOk(world, g, sides) && SideOk(world, g, h, node)
    ensures SidesOk(world, g, sides[h := node])
  {
    hide SideOk;
  }

  lemma SidesFewer(world: iset<Block>, g: Hash, sides: map<Hash, SideNode>, gone: set<Hash>)
    requires SidesOk(world, g, sides)
    ensures SidesOk(world, g, sides - gone)
  {
  }

  function Reverse<T>(xs: seq<T>): seq<T> {
    seq(|xs|, i requires 0 <= i < |xs| => xs[|xs| - 1 - i])
  }

  lemma ReverseSnoc<T>(xs: seq<T>, x: T)
    ensures Reverse(xs + [x]) == [x] + Reverse(xs)
  {
  }

  lemma ReverseNone<T>()
    ensures Reverse<T>([]) == []
  {
  }

  // ----- Branches -----

  ghost predicate IsActive(path: seq<Block>, h: Hash) {
    exists i :: 0 <= i < |path| && BlockHash(path[i]) == h
  }

  ghost function Position(path: seq<Block>, h: Hash): (i: int)
    requires IsActive(path, h)
    ensures 0 <= i < |path| && BlockHash(path[i]) == h
  {
    var i :| 0 <= i < |path| && BlockHash(path[i]) == h;
    i
  }

  /** The chain that activating `h` would make: the active blocks up to the fork, then the side
    blocks up to `h`; None when a side block on the way is no longer listed. */
  ghost function BranchPath(sides: map<Hash, SideNode>, path: seq<Block>, h: Hash): Option<seq<Block>>
    decreases h
  {
    if h !in sides || h.ZeroHash? then None
    else
      var parent := h.header.prev;
      if IsActive(path, parent) then Some(path[..Position(path, parent) + 1] + [sides[h].block])
      else
        match BranchPath(sides, path, parent)
        case None => None
        case Some(p) => Some(p + [sides[h].block])
  }

  /** Proper ancestors, along the parent links that hashes commit to. */
  predicate Ancestor(x: Hash, h: Hash) {
    h.HeaderHash? && (h.header.prev == x || Ancestor(x, h.header.prev))
  }

  lemma {:induction false} AncestorStep(x: Hash, h: Hash)
    requires x.HeaderHash? && (x == h || Ancestor(x, h))
    ensures Ancestor(x.header.prev, h)
  {
    if x != h && h.header.prev != x {
      AncestorStep(x, h.header.prev);
    }
  }

  lemma {:induction false} AncestorLower(x: Hash, h: Hash)
    requires Ancestor(x, h)
    ensures Depth(x) < Depth(h)
  {
    if h.header.prev != x {
      AncestorLower(x, h.header.prev);
    }
  }

  /** The blocks to connect, oldest first, for nodes listed newest first. */
  function AttachBlocks(nodes: seq<SideNode>): seq<Block> {
    seq(|nodes|, i requires 0 <= i < |nodes| => nodes[|nodes| - 1 - i].block)
  }

  ghost predicate NodesOk(world: iset<Block>, sides: map<Hash, SideNode>, tipHash: Hash, nodes: seq<SideNode>) {
    && |nodes| > 0 && nodes[0].hash == tipHash
    && (forall k :: 0 <= k < |nodes| ==> NodeOk(world, sides, nodes[k]))
    && (forall k :: 0 < k < |nodes| ==> Ancestor(nodes[k].hash, tipHash))
    && (forall k :: 0 <= k < |nodes| - 1 ==> nodes[k].parent == nodes[k + 1].hash)
  }

  ghost predicate NodeOk(world: iset<Block>, sides: map<Hash, SideNode>, node: SideNode) {
    && node.hash in sides && node == sides[node.hash]
    && node.block in world && BlockHash(node.block) == node.hash
    && node.parent == node.block.header.prev
  }

  ghost function Extended(p: Option<seq<Block>>, nodes: seq<SideNode>): Option<seq<Block>> {
    if p.None? then None else Some(p.value + AttachBlocks(nodes))
  }

  lemma BranchStart(sides: map<Hash, SideNode>, path: seq<Block>, h: Hash)
    ensures BranchPath(sides, path, h) == Extended(BranchPath(sides, path, h), [])
  {
    var p := BranchPath(sides, path, h);
    assert p.Some? ==> p.value + AttachBlocks([]) == p.value;
  }

  /** One more node in hand; if its parent is a listed side block, the walk goes on there. */
  lemma BranchStep(world: iset<Block>, sides: map<Hash, SideNode>, path: seq<Block>, tipHash: Hash, nodes: seq<SideNode>, cur: SideNode)
    requires cur.hash in sides && cur == sides[cur.hash] && cur.hash.HeaderHash? && cur.parent == cur.hash.header.prev
    requires cur.block in world && BlockHash(cur.block) == cur.hash
    requires nodes == [] ==> cur.hash == tipHash
    requires nodes != [] ==>
      NodesOk(world, sides, tipHash, nodes) && Ancestor(cur.hash, tipHash) && nodes[|nodes| - 1].parent == cur.hash
    requires BranchPath(sides, path, tipHash) == Extended(BranchPath(sides, path, cur.hash), nodes)
    ensures NodesOk(world, sides, tipHash, nodes + [cur])
    ensures Ancestor(cur.parent, tipHash) && cur.parent != tipHash
    ensures !IsActive(path, cur.parent) ==>
      BranchPath(sides, path, tipHash) == Extended(BranchPath(sides, path, cur.parent), nodes + [cur])
    ensures cur.parent !in sides ==> BranchPath(sides, path, cur.parent) == None
  {
    AncestorStep(cur.hash, tipHash);
    AncestorLower(cur.parent, tipHash);
    assert AttachBlocks(nodes + [cur]) == [cur.block] + AttachBlocks(nodes);
    if !IsActive(path, cur.parent) && BranchPath(sides, path, cur.parent).Some? {
      var p := BranchPath(sides, path, cur.parent).value;
      assert p + [cur.block] + AttachBlocks(nodes) == p + AttachBlocks(nodes + [cur]);
    }
  }

  lemma BranchEnds(sides: map<Hash, SideNode>, path: seq<Block>, tipHash: Hash, nodes: seq<SideNode>, cur: SideNode, i: int)
    requires Linked(path) && cur.hash in sides && cur == sides[cur.hash]
    requires cur.hash.HeaderHash? && cur.parent == cur.hash.header.prev
    requires 0 <= i < |path| && BlockHash(path[i]) == cur.parent
    requires BranchPath(sides, path, tipHash) == Extended(BranchPath(sides, path, cur.hash), nodes)
    ensures BranchPath(sides, path, tipHash) == Some(path[..i + 1] + AttachBlocks(nodes + [cur]))
  {
    var j := Position(path, cur.parent);
    if i < j {
      PathHashesDiffer(path, i, j);
    } else if j < i {
      PathHashesDiffer(path, j, i);
    }
    assert AttachBlocks(nodes + [cur]) == [cur.block] + AttachBlocks(nodes);
    assert path[..i + 1] + [cur.block] + AttachBlocks(nodes) == path[..i + 1] + AttachBlocks(nodes + [cur]);
  }

  /** No orphan waits on a listed block below the branch tip `h`. */
  ghost predicate NoEarlyOrphans(sides: map<Hash, SideNode>, byHash: map<Hash, Block>, byPrev: map<Hash, seq<Hash>>, h: Hash) {
    forall x :: x in sides && Ancestor(x, h) ==> Quiet(byHash, byPrev, x)
  }

  /** An orphan filed under the last of the first n blocks of `target` fits on those blocks. */
  ghost predicate StraysAt(params: Params, pool: map<Hash, Block>, byPrev: map<Hash, seq<Hash>>, target: seq<Block>, clock: Clock, n: int) {
    && 0 < n < |target|
    && ValidPath(params, target[..n], clock)
    && !NoneEligible(params, pool, target[..n], clock, WaitingFor(byPrev, TipOf(target[..n])))
  }

  /** So it is somewhere above the first f blocks and below the end. */
  ghost predicate Strays(params: Params, pool: map<Hash, Block>, byPrev: map<Hash, seq<Hash>>, target: seq<Block>, f: nat, clock: Clock) {
    exists n :: f < n < |target| && StraysAt(params, pool, byPrev, target, clock, n)
  }

  /** Somewhere below the tip of `target` and off the active chain, a waiting orphan fits: the
    condition, on the state before a switch to `target`, under which the switch goes astray. */
  ghost predicate GoesAstray(params: Params, pool: map<Hash, Block>, byPrev: map<Hash, seq<Hash>>, path: seq<Block>, target: seq<Block>, clock: Clock) {
    exists n :: 0 < n < |target| && !(target[..n] <= path) && StraysAt(params, pool, byPrev, target, clock, n)
  }

  lemma StraysAtLater(params: Params, pool: map<Hash, Block>, byPrev: map<Hash, seq<Hash>>, target: seq<Block>, clock: Clock, later: Clock, n: int)
    requires StraysAt(params, pool, byPrev, target, clock, n) && clock <= later
    ensures StraysAt(params, pool, byPrev, target, later, n)
  {
    var front := target[..n];
    ValidPathPrefix(params, front, n, clock, later);
    assert front[..n] == front;
    hide ValidPath, NoneEligible;
    if NoneEligible(params, pool, front, later, WaitingFor(byPrev, TipOf(front))) {
      NoneEarlier(params, pool, front, clock, later, WaitingFor(byPrev, TipOf(front)));
    }
  }

  lemma StraysLater(params: Params, pool: map<Hash, Block>, byPrev: map<Hash, seq<Hash>>, target: seq<Block>, f: nat, clock: Clock, later: Clock)
    requires clock <= later
    ensures Strays(params, pool, byPrev, target, f, clock) ==> Strays(params, pool, byPrev, target, f, later)
  {
    hide StraysAt;
    if Strays(params, pool, byPrev, target, f, clock) {
      var n :| f < n < |target| && StraysAt(params, pool, byPrev, target, clock, n);
      StraysAtLater(params, pool, byPrev, target, clock, later, n);
    }
  }

  /** Above a fork the two ways to say it agree. */
  lemma AstrayIs(params: Params, pool: map<Hash, Block>, byPrev: map<Hash, seq<Hash>>, path: seq<Block>, f: nat, target: seq<Block>, clock: Clock)
    requires 0 < f <= |path| && f < |target| && target[..f] == path[..f] && (f < |path| ==> target[f] != path[f])
    ensures Strays(params, pool, byPrev, target, f, clock) <==> GoesAstray(params, pool, byPrev, path, target, clock)
  {
    forall n: int | 0 < n < |target|
      ensures !(target[..n] <= path) <==> f < n
    {
      if f < n {
        assert f < |path| ==> target[..n][f] == target[f];
      } else {
        assert target[..n] == target[..f][..n] == path[..n];
      }
    }
    hide StraysAt;
  }

  /** What connecting `b` and the orphans after it did. */
  ghost predicate WentUp(params: Params, before: seq<Block>, b: Block, pool: map<Hash, Block>, lists: map<Hash, seq<Hash>>, when: Clock,
                        path: seq<Block>, pool': map<Hash, Block>, lists': map<Hash, seq<Hash>>, clock: Clock)
  {
    var here, h := before + [b], BlockHash(b);
    && here <= path && when <= clock
    && (path == here ==> pool' == pool && lists' == lists - {h} && NoneEligible(params, pool, here, when, WaitingFor(lists, h)))
    && (path != here ==> !NoneEligible(params, pool, here, clock, WaitingFor(lists, h)))
  }

  /** Part of the way up `target` from its first f blocks: nothing eligible was met on the way, and
    what strayed was eligible on the last block connected. */
  ghost predicate Climbing(params: Params, target: seq<Block>, f: nat, byHash: map<Hash, Block>, byPrev: map<Hash, seq<Hash>>, start: Clock,
                           n: nat, strayed: nat, path: seq<Block>, pool: map<Hash, Block>, lists: map<Hash, seq<Hash>>, clock: Clock)
  {
    && 0 < f <= n <= |target| && start <= clock
    && target[..n] <= path && |path| == n + strayed && (strayed > 0 ==> f < n)
    && (forall m :: f < m < n ==> Unvisited(params, target, byHash, byPrev, start, m))
    && (strayed == 0 ==>
          && pool == byHash
          && (f < n ==> Unvisited(params, target, byHash, byPrev, start, n))
          && forall m :: n < m <= |target| ==> WaitingFor(lists, TipOf(target[..m])) == WaitingFor(byPrev, TipOf(target[..m])))
    && (strayed > 0 ==> !NoneEligible(params, byHash, target[..n], clock, WaitingFor(byPrev, TipOf(target[..n]))))
  }

  ghost predicate Unvisited(params: Params, target: seq<Block>, byHash: map<Hash, Block>, byPrev: map<Hash, seq<Hash>>, start: Clock, m: nat)
    requires m <= |target|
  {
    NoneEligible(params, byHash, target[..m], start, WaitingFor(byPrev, TipOf(target[..m])))
  }

  lemma ClimbStart(params: Params, target: seq<Block>, f: nat, byHash: map<Hash, Block>, byPrev: map<Hash, seq<Hash>>, start: Clock)
    requires 0 < f <= |target|
    ensures Climbing(params, target, f, byHash, byPrev, start, f, 0, target[..f], byHash, byPrev, start)
  {
  }

  lemma ClimbStep(params: Params, target: seq<Block>, f: nat, byHash: map<Hash, Block>, byPrev: map<Hash, seq<Hash>>, start: Clock,
                  n: nat, before: seq<Block>, pool: map<Hash, Block>, lists: map<Hash, seq<Hash>>, when: Clock,
                  path: seq<Block>, pool': map<Hash, Block>, lists': map<Hash, seq<Hash>>, clock: Clock)
    requires Linked(target) && n < |target|
    requires Climbing(params, target, f, byHash, byPrev, start, n, 0, before, pool, lists, when)
    requires WentUp(params, before, target[n], pool, lists, when, path, pool', lists', clock)
    ensures |path| > n && Climbing(params, target, f, byHash, byPrev, start, n + 1, |path| - n - 1, path, pool', lists', clock)
  {
    var here, h := before + [target[n]], BlockHash(target[n]);
    ClimbedTo(target, n, before);
    assert before == target[..n] && start <= when && pool == byHash && WaitingFor(lists, h) == WaitingFor(byPrev, h);
    hide NoneEligible, Linked, WaitingFor;
    if path == here {
      NoneEarlier(params, pool, here, start, when, WaitingFor(lists, h));
      ListsAbove(target, n, lists, byPrev);
    }
  }

  lemma ClimbedTo(target: seq<Block>, n: nat, before: seq<Block>)
    requires n < |target|
    ensures target[..n] + [target[n]] == target[..n + 1] && TipOf(target[..n + 1]) == BlockHash(target[n])
    ensures |before| == n && target[..n] <= before ==> before == target[..n]
  {
  }

  /** The lists under the blocks still to come are as they were. */
  lemma ListsAbove(target: seq<Block>, n: nat, lists: map<Hash, seq<Hash>>, byPrev: map<Hash, seq<Hash>>)
    requires Linked(target) && n < |target|
    requires forall m :: n < m <= |target| ==> WaitingFor(lists, TipOf(target[..m])) == WaitingFor(byPrev, TipOf(target[..m]))
    ensures forall m :: n + 1 < m <= |target| ==>
      WaitingFor(lists - {BlockHash(target[n])}, TipOf(target[..m])) == WaitingFor(byPrev, TipOf(target[..m]))
  {
    forall m | n + 1 < m <= |target|
      ensures WaitingFor(lists - {BlockHash(target[n])}, TipOf(target[..m])) == WaitingFor(lists, TipOf(target[..m]))
    {
      PathHashesDiffer(target, n, m - 1);
      hide Linked;
    }
    hide WaitingFor, Linked;
  }

  /** The next block is refused.  With strays on top, they were eligible below; without, the branch is
    invalid from there on and no orphan fits anywhere below. */
  lemma ClimbStops(params: Params, target: seq<Block>, f: nat, byHash: map<Hash, Block>, byPrev: map<Hash, seq<Hash>>, start: Clock,
                   n: nat, strayed: nat, path: seq<Block>, pool: map<Hash, Block>, lists: map<Hash, seq<Hash>>, when: Clock, clock: Clock)
    requires n < |target| && when <= clock && ValidPath(params, path, clock)
    requires Climbing(params, target, f, byHash, byPrev, start, n, strayed, path, pool, lists, when)
    requires strayed == 0 ==> !BlockOk(params, path, target[n], clock)
    ensures strayed > 0 ==> Strays(params, byHash, byPrev, target, f, clock)
    ensures strayed == 0 ==> !ValidPath(params, target, start) && !Strays(params, byHash, byPrev, target, f, start)
  {
    hide ValidPath, NoneEligible, WaitingFor, BlockOk, StraysAt, Strays;
    assert path[..n] == target[..n];
    if strayed > 0 {
      ValidPathPrefix(params, path, n, clock, clock);
      StrayedAt(params, target, f, byHash, byPrev, n, when, clock);
    } else {
      assert path == target[..n];
      forall m: nat | f < m <= n
        ensures Unvisited(params, target, byHash, byPrev, start, m)
      {
      }
      hide Climbing, Unvisited;
      Refused(params, target, n, start, clock);
      NoneStray(params, target, f, byHash, byPrev, start, n);
    }
  }

  /** A refused block makes every chain with it invalid. */
  lemma Refused(params: Params, target: seq<Block>, n: nat, start: Clock, clock: Clock)
    requires 0 < n < |target| && start <= clock && !BlockOk(params, target[..n], target[n], clock)
    ensures forall m: nat :: n < m <= |target| ==> !ValidPath(params, target[..m], start)
    ensures !ValidPath(params, target, start)
  {
    hide ValidPath, BlockOk;
    forall m: nat | n < m <= |target|
      ensures !ValidPath(params, target[..m], start)
    {
      assert target[..m][..n] == target[..n] && target[..m][n] == target[n];
      if ValidPath(params, target[..m], start) {
        StillOk(params, target[..m], n, start, clock);
      }
    }
    assert target[..|target|] == target;
  }

  lemma NoneStray(params: Params, target: seq<Block>, f: nat, byHash: map<Hash, Block>, byPrev: map<Hash, seq<Hash>>, start: Clock, n: nat)
    requires n < |target|
    requires forall m: nat :: f < m <= n ==> Unvisited(params, target, byHash, byPrev, start, m)
    requires forall m: nat :: n < m <= |target| ==> !ValidPath(params, target[..m], start)
    ensures !Strays(params, byHash, byPrev, target, f, start)
  {
    hide ValidPath, NoneEligible, WaitingFor;
    forall m | f < m < |target|
      ensures !StraysAt(params, byHash, byPrev, target, start, m)
    {
      assert m <= n ==> Unvisited(params, target, byHash, byPrev, start, m);
      assert n < m ==> !ValidPath(params, target[..m], start);
    }
  }

  lemma StrayedAt(params: Params, target: seq<Block>, f: nat, byHash: map<Hash, Block>, byPrev: map<Hash, seq<Hash>>,
                  n: nat, when: Clock, clock: Clock)
    requires 0 < f < n < |target| && when <= clock && ValidPath(params, target[..n], clock)
    requires !NoneEligible(params, byHash, target[..n], when, WaitingFor(byPrev, TipOf(target[..n])))
    ensures Strays(params, byHash, byPrev, target, f, clock)
  {
    hide ValidPath, NoneEligible;
    var xs := WaitingFor(byPrev, TipOf(target[..n]));
    if NoneEligible(params, byHash, target[..n], clock, xs) {
      NoneEarlier(params, byHash, target[..n], when, clock, xs);
    }
    assert StraysAt(params, byHash, byPrev, target, clock, n);
  }

  /** The whole branch went on, so no orphan fitted below its tip. */
  lemma ClimbEnds(params: Params, target: seq<Block>, f: nat, byHash: map<Hash, Block>, byPrev: map<Hash, seq<Hash>>, start: Clock,
                  strayed: nat, path: seq<Block>, pool: map<Hash, Block>, lists: map<Hash, seq<Hash>>, clock: Clock)
    requires Climbing(params, target, f, byHash, byPrev, start, |target|, strayed, path, pool, lists, clock)
    ensures target <= path && !Strays(params, byHash, byPrev, target, f, start)
  {
    assert target[..|target|] == target;
    forall m | f < m < |target|
      ensures !StraysAt(params, byHash, byPrev, target, start, m)
    {
      assert Unvisited(params, target, byHash, byPrev, start, m);
      hide ValidPath, NoneEligible;
    }
    hide StraysAt, Unvisited;
  }

  /** Where the climb is, as blocks connected on the base. */
  lemma ClimbParts(params: Params, base: seq<Block>, blocks: seq<Block>, byHash: map<Hash, Block>, byPrev: map<Hash, seq<Hash>>, start: Clock,
                   connected: nat, strayed: nat, path: seq<Block>, pool: map<Hash, Block>, lists: map<Hash, seq<Hash>>, clock: Clock)
    requires connected <= |blocks|
    requires Climbing(params, base + blocks, |base|, byHash, byPrev, start, |base| + connected, strayed, path, pool, lists, clock)
    ensures PartWay(base, blocks, connected, strayed, path) && start <= clock && |path| > 0
    ensures strayed == 0 ==> pool == byHash
  {
    assert (base + blocks)[..|base| + connected] == base + blocks[..connected];
    hide Unvisited, NoneEligible;
  }

  lemma BranchLinked(base: seq<Block>, nodes: seq<SideNode>, sides: map<Hash, SideNode>, tipHash: Hash, world: iset<Block>)
    requires NodesOk(world, sides, tipHash, nodes) && Linked(base) && |base| > 0 && nodes[|nodes| - 1].parent == TipOf(base)
    ensures Linked(base + AttachBlocks(nodes)) && |AttachBlocks(nodes)| == |nodes| > 0
  {
    var blocks := AttachBlocks(nodes);
    var target := base + blocks;
    forall i | 0 < i < |target|
      ensures target[i].header.prev == BlockHash(target[i - 1])
    {
      if i >= |base| {
        var k := |nodes| - 1 - (i - |base|);
        assert target[i] == nodes[k].block && NodeOk(world, sides, nodes[k]);
        assert i > |base| ==> target[i - 1] == nodes[k + 1].block && NodeOk(world, sides, nodes[k + 1]);
      }
    }
    hide Ancestor;
  }

  /** After taking back as many blocks as were connected: the fork, or, when orphans strayed in,
    the lower part of the branch with some of them. */
  ghost predicate Stranded(fork: seq<Block>, blocks: seq<Block>, connected: nat, strayed: nat, path: seq<Block>) {
    && |path| == |fork| + strayed
    && connected <= |blocks|
    && fork + blocks[..Min(connected, strayed)] <= path
    && (strayed > 0 ==> connected > 0)
  }

  lemma PartWayLength(base: seq<Block>, blocks: seq<Block>, connected: nat, strayed: nat, path: seq<Block>)
    requires PartWay(base, blocks, connected, strayed, path)
    ensures |path| == |base| + connected + strayed
  {
  }

  lemma TakeBack(fork: seq<Block>, blocks: seq<Block>, connected: nat, strayed: nat, stuck: seq<Block>, back: seq<Block>)
    requires PartWay(fork, blocks, connected, strayed, stuck) && back <= stuck && |back| == |stuck| - connected
    ensures Stranded(fork, blocks, connected, strayed, back)
    ensures strayed == 0 ==> back == fork
  {
    var m := Min(connected, strayed);
    assert fork + blocks[..m] <= back by {
      assert fork + blocks[..connected] == (fork + blocks[..m]) + blocks[m..connected];
    }
  }

  /** Taking the branch back leaves the fork, or a path that the old blocks do not follow. */
  lemma OffTheFork(params: Params, fork: seq<Block>, removed: seq<Block>, target: seq<Block>, when: Clock,
                   blocks: seq<Block>, connected: nat, strayed: nat, path: seq<Block>, clock: Clock)
    requires |fork| > 0 && |removed| > 0 && target == fork + Reverse(removed) && ValidPath(params, target, when) && when <= clock
    requires Stranded(fork, blocks, connected, strayed, path) && ValidPath(params, path, clock)
    ensures if strayed == 0 then Restores(params, path, removed, target, when, clock) else Unlinked(path, removed)
  {
    hide *;
    StrandedEnds(fork, blocks, connected, strayed, path);
    if strayed == 0 {
      RestoresFork(params, fork, removed, target, when, clock);
    } else {
      OldestFollows(params, fork, removed, target, when);
      ValidPathFacts(params, path, clock);
      PathHashesDiffer(path, |fork| - 1, |path| - 1);
      OffEnd(path, fork, removed);
    }
  }

  lemma RestoresFork(params: Params, fork: seq<Block>, removed: seq<Block>, target: seq<Block>, when: Clock, clock: Clock)
    requires |fork| > 0 && target == fork + Reverse(removed) && ValidPath(params, target, when) && when <= clock
    ensures Restores(params, fork, removed, target, when, clock)
  {
    hide ValidPath;
  }

  lemma StrandedEnds(fork: seq<Block>, blocks: seq<Block>, connected: nat, strayed: nat, path: seq<Block>)
    requires |fork| > 0
    ensures Stranded(fork, blocks, connected, strayed, path) ==>
      && |path| == |fork| + strayed && path[|fork| - 1] == fork[|fork| - 1]
      && (strayed == 0 ==> path == fork)
  {
  }

  lemma ActiveIs(path: seq<Block>, h: Hash)
    ensures IsActive(path, h) <==> exists i :: 0 <= i < |path| && BlockHash(path[i]) == h
  {
  }

  lemma TipEnd(path: seq<Block>)
    ensures |path| > 0 ==> TipOf(path) == BlockHash(path[|path| - 1])
  {
  }

  /** The branch leaves the active chain at its first block. */
  lemma OffBranch(world: iset<Block>, sides: map<Hash, SideNode>, tipHash: Hash, nodes: seq<SideNode>, path: seq<Block>, fork: int)
    requires NodesOk(world, sides, tipHash, nodes) && 0 <= fork < |path| && !IsActive(path, nodes[|nodes| - 1].hash)
    ensures var f, target := fork + 1, path[..fork + 1] + AttachBlocks(nodes);
      && f < |target| && target[..f] == path[..f] && |AttachBlocks(nodes)| > 0 && (f < |path| ==> target[f] != path[f])
  {
    assert NodeOk(world, sides, nodes[|nodes| - 1]);
    hide Ancestor;
  }

  /** A stranded path is not the old one: it is longer, or has the branch above the fork. */
  lemma StrandedOff(before: seq<Block>, fork: seq<Block>, blocks: seq<Block>, connected: nat, strayed: nat, path: seq<Block>)
    requires |fork| > 0 && fork <= before && |blocks| > 0 && (|fork| < |before| ==> (fork + blocks)[|fork|] != before[|fork|])
    ensures Stranded(fork, blocks, connected, strayed, path) && strayed > 0 ==> path != before
  {
    if Stranded(fork, blocks, connected, strayed, path) && strayed > 0 {
      assert Min(connected, strayed) >= 1;
      assert path[|fork|] == blocks[0];
    }
  }

  lemma OffEnd(path: seq<Block>, fork: seq<Block>, removed: seq<Block>)
    requires |path| > |fork| > 0 && |removed| > 0 && path[|fork| - 1] == fork[|fork| - 1]
    requires removed[|removed| - 1].header.prev == TipOf(fork) && BlockHash(path[|fork| - 1]) != BlockHash(path[|path| - 1])
    ensures Unlinked(path, removed)
  {
  }

  lemma OldestFollows(params: Params, fork: seq<Block>, removed: seq<Block>, target: seq<Block>, when: Clock)
    requires |fork| > 0 && |removed| > 0 && target == fork + Reverse(removed) && ValidPath(params, target, when)
    ensures removed[|removed| - 1].header.prev == TipOf(fork)
  {
    hide *;
    ValidPathFacts(params, target, when);
    LinkedAt(fork, removed, target);
  }

  lemma LinkedAt(fork: seq<Block>, removed: seq<Block>, target: seq<Block>)
    requires |fork| > 0 && |removed| > 0 && target == fork + Reverse(removed) && Linked(target)
    ensures removed[|removed| - 1].header.prev == TipOf(fork)
  {
    var n := |fork|;
    assert target[n] == Reverse(removed)[0] == removed[|removed| - 1] && target[n - 1] == fork[n - 1];
  }

  lemma ReverseLength<T>(xs: seq<T>)
    ensures |Reverse(xs)| == |xs|
  {
  }

  /** Putting `blocks`, given newest first, on `base` gives a path that was valid before. */
  ghost predicate Restores(params: Params, base: seq<Block>, blocks: seq<Block>, target: seq<Block>, when: Clock, now: Clock) {
    |base| > 0 && target == base + Reverse(blocks) && ValidPath(params, target, when) && when <= now
  }

  /** The oldest of `blocks` does not follow the end of `base`. */
  ghost predicate Unlinked(base: seq<Block>, blocks: seq<Block>) {
    |base| > 0 && |blocks| > 0 && blocks[|blocks| - 1].header.prev != TipOf(base)
  }

  lemma RestoresEnds(params: Params, base: seq<Block>, blocks: seq<Block>, target: seq<Block>, when: Clock, now: Clock)
    ensures Restores(params, base, blocks, target, when, now) ==>
      |target| == |base| + |blocks| && base <= target && |base| > 0 && ValidPath(params, target, when) && when <= now
  {
  }

  lemma RestoresNext(params: Params, base: seq<Block>, blocks: seq<Block>, target: seq<Block>, when: Clock, now: Clock, path: seq<Block>, i: int)
    requires 0 <= i < |blocks|
    ensures Restores(params, base, blocks, target, when, now) && path <= target && |path| == |base| + |blocks| - 1 - i
      ==> path + [blocks[i]] <= target && |path| > 0
    ensures Unlinked(base, blocks) && i == |blocks| - 1 ==> |base| > 0 && blocks[i].header.prev != TipOf(base)
  {
    hide ValidPath;
    if Restores(params, base, blocks, target, when, now) && path <= target && |path| == |base| + |blocks| - 1 - i {
      assert target[|path|] == Reverse(blocks)[|blocks| - 1 - i] == blocks[i];
    }
  }

  /** What is left of the side list: nothing new, and what is gone is active now, left the orphan
    pool, or is more than 288 below the tip. */
  ghost predicate ListKept(before: map<Hash, SideNode>, after: map<Hash, SideNode>, pool: map<Hash, Block>, left: map<Hash, Block>, path: seq<Block>) {
    && (forall h :: h in after ==> h in before && after[h] == before[h])
    && forall h :: h in before && h !in after ==>
         IsActive(path, h) || (h in pool && h !in left) || before[h].height < |path| - 1 - 288
  }

  lemma AllKept(sides: map<Hash, SideNode>, pool: map<Hash, Block>, path: seq<Block>)
    ensures ListKept(sides, sides, pool, pool, path)
  {
  }

  lemma UnlistedKept(sides: map<Hash, SideNode>, pool: map<Hash, Block>, left: map<Hash, Block>, path: seq<Block>)
    ensures ListKept(sides, Unlisted(sides, pool, left), pool, left, path)
  {
    hide IsActive;
  }

  lemma PrunedKept(sides: map<Hash, SideNode>, pool: map<Hash, Block>, left: map<Hash, Block>, nodes: seq<SideNode>, path: seq<Block>,
                   after: map<Hash, SideNode>)
    requires forall h :: h in NodeHashes(nodes, |nodes|) ==> IsActive(path, h)
    requires after == KeptFrom(Unlisted(sides, pool, left) - NodeHashes(nodes, |nodes|), |path| - 1 - MAX_SIDE_CHAIN_DEPTH)
    ensures ListKept(sides, after, pool, left, path)
    ensures |nodes| > 0 ==> nodes[0].hash !in after
  {
    hide IsActive;
  }

  lemma JustPruned(sides: map<Hash, SideNode>, pool: map<Hash, Block>, left: map<Hash, Block>, path: seq<Block>, after: map<Hash, SideNode>)
    requires after == KeptFrom(Unlisted(sides, pool, left), |path| - 1 - MAX_SIDE_CHAIN_DEPTH)
    ensures ListKept(sides, after, pool, left, path)
  {
    hide IsActive;
  }

  /** The nodes of an activated branch are active. */
  lemma NodesActive(world: iset<Block>, sides: map<Hash, SideNode>, tipHash: Hash, nodes: seq<SideNode>, fork: seq<Block>, path: seq<Block>)
    requires NodesOk(world, sides, tipHash, nodes) && fork + AttachBlocks(nodes) <= path
    ensures forall h :: h in NodeHashes(nodes, |nodes|) ==> IsActive(path, h)
  {
    var target := fork + AttachBlocks(nodes);
    forall k | 0 <= k < |nodes|
      ensures IsActive(path, nodes[k].hash)
    {
      assert NodeOk(world, sides, nodes[k]);
      var i := |fork| + (|nodes| - 1 - k);
      assert path[i] == target[i] == nodes[k].block;
    }
    hide IsActive, Ancestor;
  }

  lemma LongerThan(before: seq<Block>, fork: seq<Block>, blocks: seq<Block>, path: seq<Block>)
    requires fork <= before && |blocks| > 0 && fork + blocks <= path
    requires |fork| < |before| ==> (fork + blocks)[|fork|] != before[|fork|]
    ensures path != before
  {
    assert path[|fork|] == (fork + blocks)[|fork|];
  }

  lemma FirstNode(world: iset<Block>, sides: map<Hash, SideNode>, tipHash: Hash, nodes: seq<SideNode>)
    requires NodesOk(world, sides, tipHash, nodes)
    ensures |nodes| > 0 && nodes[0].hash == tipHash
  {
    hide NodeOk, Ancestor;
  }

  lemma ForkEnd(path: seq<Block>, forkHeight: int)
    requires 0 <= forkHeight < |path|
    ensures TipOf(path[..forkHeight + 1]) == BlockHash(path[forkHeight])
  {
  }

  lemma NodeFacts(world: iset<Block>, sides: map<Hash, SideNode>, tipHash: Hash, nodes: seq<SideNode>, k: int)
    requires NodesOk(world, sides, tipHash, nodes) && 0 <= k < |nodes|
    ensures nodes[k].block in world && nodes[k].hash in sides && BlockHash(nodes[k].block) == nodes[k].hash
    ensures nodes[k].parent == nodes[k].block.header.prev
    ensures k > 0 ==> Ancestor(nodes[k].hash, tipHash)
  {
    assert NodeOk(world, sides, nodes[k]);
  }

  /** The path is the base, then the first `connected` blocks, then `strayed` others. */
  ghost predicate PartWay(base: seq<Block>, blocks: seq<Block>, connected: nat, strayed: nat, path: seq<Block>) {
    && connected <= |blocks|
    && base + blocks[..connected] <= path
    && |path| == |base| + connected + strayed
    && (strayed > 0 ==> connected > 0)
  }

  /** The block a node has to follow is the last one of the branch connected so far. */
  lemma FollowsLast(base: seq<Block>, nodes: seq<SideNode>, i: int, strayed: nat, path: seq<Block>,
                    sides: map<Hash, SideNode>, tipHash: Hash, world: iset<Block>)
    requires 0 <= i < |nodes| && NodesOk(world, sides, tipHash, nodes) && |base| > 0
    requires PartWay(base, AttachBlocks(nodes), |nodes| - 1 - i, strayed, path)
    requires nodes[|nodes| - 1].parent == TipOf(base)
    ensures nodes[i].parent == BlockHash(path[|base| + (|nodes| - 1 - i) - 1])
  {
    var k, blocks := |nodes| - 1 - i, AttachBlocks(nodes);
    if k > 0 {
      assert path[|base| + k - 1] == blocks[..k][k - 1] == blocks[k - 1] == nodes[i + 1].block;
      assert NodeOk(world, sides, nodes[i + 1]);
    } else {
      assert path[|base| - 1] == base[|base| - 1];
    }
    hide Ancestor;
  }

  /** The next node continues the path only if nothing strayed; then it is the next block. */
  lemma NextBlock(params: Params, base: seq<Block>, nodes: seq<SideNode>, i: int, strayed: nat, path: seq<Block>, clock: Clock,
                  sides: map<Hash, SideNode>, tipHash: Hash, world: iset<Block>, target: seq<Block>)
    requires 0 <= i < |nodes| && NodesOk(world, sides, tipHash, nodes) && ValidPath(params, path, clock) && |base| > 0
    requires target == base + AttachBlocks(nodes)
    requires PartWay(base, AttachBlocks(nodes), |nodes| - 1 - i, strayed, path)
    requires nodes[|nodes| - 1].parent == TipOf(base)
    ensures nodes[i].parent == TipOf(path) ==> strayed == 0
    ensures |AttachBlocks(nodes)| == |nodes| && target[|base| + (|nodes| - 1 - i)] == nodes[i].block
  {
    hide ValidPath, TxsValid, NodesOk;
    FollowsLast(base, nodes, i, strayed, path, sides, tipHash, world);
    ValidPathFacts(params, path, clock);
    var k, blocks := |nodes| - 1 - i, AttachBlocks(nodes);
    if strayed > 0 {
      PathHashesDiffer(path, |base| + k - 1, |path| - 1);
    }
  }

  lemma WentUpIs(params: Params, before: seq<Block>, b: Block, pool: map<Hash, Block>, lists: map<Hash, seq<Hash>>, when: Clock,
                path: seq<Block>, pool': map<Hash, Block>, lists': map<Hash, seq<Hash>>, clock: Clock)
    requires var here, h := before + [b], BlockHash(b);
      && here <= path && when <= clock
      && (path == here ==> pool' == pool && lists' == lists - {h} && NoneEligible(params, pool, here, when, WaitingFor(lists, h)))
      && (path != here ==> !NoneEligible(params, pool, here, clock, WaitingFor(lists, h)))
    ensures WentUp(params, before, b, pool, lists, when, path, pool', lists', clock)
  {
    hide NoneEligible;
  }

  lemma OkIsLinked(params: Params, path: seq<Block>, b: Block, clock: Clock)
    requires BlockOk(params, path, b, clock)
    ensures |path| > 0 ==> b.header.prev == TipOf(path)
  {
    HeadersTip(path);
    hide RequiredBits, MedianTime, BlockTxsOk, CheckProofOfWork, MerkleRoot, Replay;
  }

  /** The side blocks at or above a height. */
  function KeptFrom(sides: map<Hash, SideNode>, minHeight: int): map<Hash, SideNode> {
    map h | h in sides && sides[h].height >= minHeight :: sides[h]
  }

  /** Those below the height are gone, but for the ones still to be looked at. */
  ghost predicate Pruned(before: map<Hash, SideNode>, minHeight: int, todo: set<Hash>, sides: map<Hash, SideNode>) {
    && todo <= sides.Keys
    && sides == map h | h in before && (h in todo || before[h].height >= minHeight) :: before[h]
  }

  lemma PruneStart(sides: map<Hash, SideNode>, minHeight: int)
    ensures Pruned(sides, minHeight, sides.Keys, sides)
    ensures sides == map[] ==> KeptFrom(sides, minHeight) == sides
  {
  }

  lemma PruneNext(before: map<Hash, SideNode>, minHeight: int, todo: set<Hash>, sides: map<Hash, SideNode>, h: Hash)
    requires Pruned(before, minHeight, todo, sides) && h in todo
    ensures h in sides
    ensures Pruned(before, minHeight, todo - {h}, if sides[h].height < minHeight then sides - {h} else sides)
  {
  }

  lemma PruneEnd(before: map<Hash, SideNode>, minHeight: int, sides: map<Hash, SideNode>)
    requires Pruned(before, minHeight, {}, sides)
    ensures sides == KeptFrom(before, minHeight)
  {
  }

  function NodeHashes(nodes: seq<SideNode>, n: nat): set<Hash>
    requires n <= |nodes|
  {
    set i | 0 <= i < n :: nodes[i].hash
  }

  lemma NoHashesYet(sides: map<Hash, SideNode>, nodes: seq<SideNode>)
    ensures sides - NodeHashes(nodes, 0) == sides
  {
  }

  lemma NodeHashesStep(nodes: seq<SideNode>, i: nat)
    requires i < |nodes|
    ensures NodeHashes(nodes, i + 1) == NodeHashes(nodes, i) + {nodes[i].hash}
  {
  }

  datatype GenesisError = BadGenesisHash | BadGenesisPow | BadGenesisBlock(why: BlockError)

  datatype BlockStatus = Connected | Duplicate | SideChain | Orphan | Rejected

  /** `q` grew from the same first block as `p` and its tip has more cumulative work. */
  ghost predicate Heavier(p: seq<Block>, q: seq<Block>) {
    && |p| > 0 && |q| > 0 && RootOf(q) == RootOf(p)
    && WorkOf(RootOf(p), TipOf(q)) > WorkOf(RootOf(p), TipOf(p))
  }

  lemma {:induction false} TargetShape(sides: map<Hash, SideNode>, path: seq<Block>, h: Hash)
    requires forall x :: x in sides ==> BlockHash(sides[x].block) == x
    requires BranchPath(sides, path, h).Some?
    ensures var p := BranchPath(sides, path, h).value;
      |path| > 0 && |p| > 1 && p[0] == path[0] && TipOf(p) == h
    decreases h
  {
    if !IsActive(path, h.header.prev) {
      TargetShape(sides, path, h.header.prev);
    }
  }

  /** The side node of a block over a parent at a known height. */
  ghost function NodeFor(g: Hash, block: Block, parentHeight: int): SideNode
    requires parentHeight >= -1
  {
    var parent := block.header.prev;
    SideNode(BlockHash(block), parent, parentHeight + 1, block, WorkOf(g, parent) + WorkForBits(block.header.bits))
  }

  lemma NodeForIs(g: Hash, block: Block, parentHeight: int)
    requires parentHeight >= -1
    ensures NodeFor(g, block, parentHeight)
         == SideNode(BlockHash(block), block.header.prev, parentHeight + 1, block,
                     WorkOf(g, block.header.prev) + WorkForBits(block.header.bits))
  {
  }

  /** The side blocks once `block` is listed under a parent at the given height. */
  ghost function Listing(sides: map<Hash, SideNode>, g: Hash, block: Block, parentHeight: int): map<Hash, SideNode> {
    if parentHeight < -1 then sides else sides[BlockHash(block) := NodeFor(g, block, parentHeight)]
  }

  lemma ListingIs(sides: map<Hash, SideNode>, g: Hash, block: Block, parentHeight: int)
    requires parentHeight >= -1
    ensures Listing(sides, g, block, parentHeight) == sides[BlockHash(block) := NodeFor(g, block, parentHeight)]
  {
    hide NodeFor;
  }

  /** The side list with `block` on it, at its height and with the work up to it. */
  ghost function WithNode(sides: map<Hash, SideNode>, g: Hash, block: Block): map<Hash, SideNode> {
    var h := BlockHash(block);
    sides[h := SideNode(h, block.header.prev, HeightOf(g, h), block, WorkOf(g, h))]
  }

  lemma ListingIsNode(sides: map<Hash, SideNode>, world: iset<Block>, g: Hash, block: Block, parentHeight: int)
    requires parentHeight >= -1 && SideOk(world, g, BlockHash(block), NodeFor(g, block, parentHeight))
    ensures Listing(sides, g, block, parentHeight) == WithNode(sides, g, block)
    ensures BlockHash(block) in WithNode(sides, g, block)
  {
    hide HeightOf, WorkOf, Rooted;
  }

  lemma NodeListed(sides: map<Hash, SideNode>, g: Hash, block: Block)
    ensures BlockHash(block) in WithNode(sides, g, block)
  {
    hide HeightOf, WorkOf;
  }

  lemma BranchTip(sides: map<Hash, SideNode>, path: seq<Block>, block: Block)
    requires BranchTo(sides, path, block).Some?
    ensures TipOf(BranchTo(sides, path, block).value) == BlockHash(block) && |BranchTo(sides, path, block).value| > 0
  {
    hide BranchPath, IsActive, Position;
    var front := BranchTo(sides, path, block).value;
    assert front[|front| - 1] == block;
  }

  /** A valid chain that contains `target` ends where it ends only if it is the same. */
  lemma TipReached(params: Params, target: seq<Block>, path: seq<Block>, clock: Clock)
    requires ValidPath(params, path, clock) && |target| > 0
    ensures target <= path ==> (TipOf(path) == TipOf(target) <==> path == target)
  {
    hide *;
    ValidPathFacts(params, path, clock);
    TipEnd(path);
    TipEnd(target);
    if target <= path && TipOf(path) == TipOf(target) && path != target {
      assert path[|target| - 1] == target[|target| - 1];
      PathHashesDiffer(path, |target| - 1, |path| - 1);
    }
  }

  lemma NoneFirst(before: seq<Block>, after: seq<Block>)
    ensures FirstFrom(before, after, []) && before <= after ==> after == before
  {
  }

  /** The chain that activating `block` would make, had it been listed. */
  ghost function BranchTo(sides: map<Hash, SideNode>, path: seq<Block>, block: Block): Option<seq<Block>> {
    var parent := block.header.prev;
    if IsActive(path, parent) then Some(path[..Position(path, parent) + 1] + [block])
    else
      match BranchPath(sides, path, parent)
      case None => None
      case Some(p) => Some(p + [block])
  }

  /** Listing a block changes no branch below it. */
  lemma {:induction false} BelowListed(sides: map<Hash, SideNode>, path: seq<Block>, h: Hash, node: SideNode, x: Hash)
    requires Depth(x) < Depth(h)
    ensures BranchPath(sides[h := node], path, x) == BranchPath(sides, path, x)
    decreases x
  {
    if x.HeaderHash? {
      BelowListed(sides, path, h, node, x.header.prev);
    }
  }

  lemma ListedBranch(sides: map<Hash, SideNode>, g: Hash, path: seq<Block>, block: Block, parentHeight: int)
    requires parentHeight >= -1
    ensures BlockHash(block) in Listing(sides, g, block, parentHeight)
    ensures BranchPath(Listing(sides, g, block, parentHeight), path, BlockHash(block)) == BranchTo(sides, path, block)
  {
    BelowListed(sides, path, BlockHash(block), NodeFor(g, block, parentHeight), block.header.prev);
    hide WorkOf, IsActive;
  }

  /** When no orphan waits on a listed block below this one, no switch to it goes astray. */
  lemma NoneEarlyNoneAstray(params: Params, sides: map<Hash, SideNode>, byHash: map<Hash, Block>, byPrev: map<Hash, seq<Hash>>,
                            path: seq<Block>, block: Block, clock: Clock)
    requires forall x :: x in sides ==> BlockHash(sides[x].block) == x
    requires NoEarlyOrphans(sides, byHash, byPrev, BlockHash(block)) && BranchTo(sides, path, block).Some?
    ensures !GoesAstray(params, byHash, byPrev, path, BranchTo(sides, path, block).value, clock)
  {
    hide *;
    var target := BranchTo(sides, path, block).value;
    forall n: int | 0 < n < |target| && !(target[..n] <= path)
      ensures !StraysAt(params, byHash, byPrev, target, clock, n)
    {
      QuietAlong(sides, byHash, byPrev, path, block, n);
      QuietNone(params, byHash, byPrev, target[..n], clock);
      NotStray(params, byHash, byPrev, target, clock, n);
    }
    NotAstray(params, byHash, byPrev, path, target, clock);
  }

  lemma NotAstray(params: Params, byHash: map<Hash, Block>, byPrev: map<Hash, seq<Hash>>, path: seq<Block>, target: seq<Block>, clock: Clock)
    requires forall n: int :: 0 < n < |target| && !(target[..n] <= path) ==> !StraysAt(params, byHash, byPrev, target, clock, n)
    ensures !GoesAstray(params, byHash, byPrev, path, target, clock)
  {
    hide StraysAt;
  }

  lemma {:induction false} QuietAlong(sides: map<Hash, SideNode>, byHash: map<Hash, Block>, byPrev: map<Hash, seq<Hash>>,
                                      path: seq<Block>, block: Block, n: int)
    requires forall x :: x in sides ==> BlockHash(sides[x].block) == x
    requires NoEarlyOrphans(sides, byHash, byPrev, BlockHash(block)) && BranchTo(sides, path, block).Some?
    requires 0 < n < |BranchTo(sides, path, block).value|
    ensures var front := BranchTo(sides, path, block).value[..n];
      front <= path || Quiet(byHash, byPrev, TipOf(front))
  {
    var target, parent := BranchTo(sides, path, block).value, block.header.prev;
    if IsActive(path, parent) {
      assert target[..n] == path[..n];
    } else {
      var p := BranchPath(sides, path, parent).value;
      assert target[..n] == p[..n];
      QuietBelow(sides, byHash, byPrev, path, parent, BlockHash(block), n);
    }
    hide Quiet, NoEarlyOrphans, BranchPath, IsActive;
  }

  lemma NotStray(params: Params, pool: map<Hash, Block>, byPrev: map<Hash, seq<Hash>>, target: seq<Block>, clock: Clock, n: int)
    requires 0 < n < |target| && NoneEligible(params, pool, target[..n], clock, WaitingFor(byPrev, TipOf(target[..n])))
    ensures !StraysAt(params, pool, byPrev, target, clock, n)
  {
    hide NoneEligible, ValidPath;
  }

  lemma QuietNone(params: Params, byHash: map<Hash, Block>, byPrev: map<Hash, seq<Hash>>, path: seq<Block>, clock: Clock)
    requires Quiet(byHash, byPrev, TipOf(path))
    ensures NoneEligible(params, byHash, path, clock, WaitingFor(byPrev, TipOf(path)))
  {
    hide BlockOk;
  }

  lemma {:induction false} QuietBelow(sides: map<Hash, SideNode>, byHash: map<Hash, Block>, byPrev: map<Hash, seq<Hash>>,
                                      path: seq<Block>, x: Hash, h: Hash, n: int)
    requires forall y :: y in sides ==> BlockHash(sides[y].block) == y
    requires NoEarlyOrphans(sides, byHash, byPrev, h) && Ancestor(x, h) && BranchPath(sides, path, x).Some?
    requires var p := BranchPath(sides, path, x).value;
      0 < n <= |p|
    ensures var p := BranchPath(sides, path, x).value;
      p[..n] <= path || Quiet(byHash, byPrev, TipOf(p[..n]))
    decreases x
  {
    var p := BranchPath(sides, path, x).value;
    if n == |p| {
      TargetShape(sides, path, x);
      assert p[..n] == p;
    } else if IsActive(path, x.header.prev) {
      assert p[..n] == path[..n];
    } else {
      AncestorStep(x, h);
      var q := BranchPath(sides, path, x.header.prev).value;
      assert p[..n] == q[..n];
      QuietBelow(sides, byHash, byPrev, path, x.header.prev, h, n);
    }
    hide Quiet;
  }

  /** `h` leads a fully listed branch that is heavier than the active chain. */
  ghost predicate Heaviest(sides: map<Hash, SideNode>, path: seq<Block>, h: Hash) {
    && h in sides && |path| > 0
    && WorkOf(RootOf(path), h) > WorkOf(RootOf(path), TipOf(path))
    && BranchPath(sides, path, h).Some?
  }

  lemma NewNodeOk(world: iset<Block>, g: Hash, block: Block, parentHeight: int)
    requires g.HeaderHash? && block in world && BlockHash(block) != g
    requires Rooted(g, block.header.prev) && parentHeight == HeightOf(g, block.header.prev)
    ensures SideOk(world, g, BlockHash(block), NodeFor(g, block, parentHeight))
  {
  }

  lemma ReachedHeavier(params: Params, before: seq<Block>, target: seq<Block>, path: seq<Block>, clock: Clock)
    requires ValidPath(params, path, clock) && target <= path && Heavier(before, target)
    ensures Heavier(before, path)
  {
    hide ValidPath, WorkOf;
    assert target[0] == path[0] && target[|target| - 1] == path[|target| - 1];
    assert RootOf(path) == RootOf(target) && TipOf(target) == BlockHash(path[|target| - 1]);
    WorkGrows(params, path, |target| - 1, |path| - 1, clock);
  }

  lemma ContainsHeavier(params: Params, before: seq<Block>, path: seq<Block>, clock: Clock)
    requires ValidPath(params, path, clock)
    ensures forall target: seq<Block> :: target <= path && Heavier(before, target) ==> Heavier(before, path)
  {
    forall target: seq<Block> | target <= path && Heavier(before, target)
      ensures Heavier(before, path)
    {
      ReachedHeavier(params, before, target, path, clock);
    }
    hide *;
  }

  lemma StillHeavier(params: Params, before: seq<Block>, reached: seq<Block>, path: seq<Block>, clock: Clock)
    requires ValidPath(params, path, clock) && reached <= path
    ensures reached == before && |before| > 0 ==> path == before || Heavier(before, path)
    ensures Heavier(before, reached) ==> Heavier(before, path)
  {
    hide *;
    if Heavier(before, reached) {
      ReachedHeavier(params, before, reached, path, clock);
    }
    if reached == before && path != before && |before| > 0 {
      GrownHeavier(params, before, path, clock);
    }
  }

  /** A chain that grew is heavier: every block on top added work. */
  lemma GrownHeavier(params: Params, before: seq<Block>, path: seq<Block>, clock: Clock)
    requires ValidPath(params, path, clock) && before <= path && before != path && |before| > 0
    ensures Heavier(before, path)
  {
    hide ValidPath, WorkOf;
    assert before[0] == path[0] && before[|before| - 1] == path[|before| - 1];
    assert RootOf(path) == RootOf(before) && TipOf(before) == BlockHash(path[|before| - 1]) && |before| < |path|;
    WorkGrows(params, path, |before| - 1, |path| - 1, clock);
  }

  lemma RootStored(params: Params, world: iset<Block>, d: Disk, path: seq<Block>, tip: Option<BlockIndex>, clock: Clock)
    requires Core(params, world, d, path, tip, clock) && |path| > 0
    ensures RootOf(path) in d.hashIndex && RootOf(path).HeaderHash?
  {
    assert FilesFor(d, path, 0);
  }

  class Chain {
    const params: Params
    const store: FileStore
    ghost const world: iset<Block>
    var clock: Clock
    var tip: Option<BlockIndex>
    var sideBlocks: map<Hash, SideNode>
    var workByHash: map<Hash, nat>
    var parentByHash: map<Hash, Hash>
    var orphanByHash: map<Hash, Block>
    var orphanByPrev: map<Hash, seq<Hash>>
    var orphanParent: map<Hash, Hash>
    var orphanOrder: seq<Hash>
    ghost var path: seq<Block>

    ghost predicate CoreValid()
      reads `tip, `path, `clock, store
    {
      store.Traced() && Core(params, world, store.disk, path, tip, clock)
    }

    ghost predicate BaseValid()
      reads `tip, `path, `clock, store
    {
      store.Traced() && Base(params, world, store.disk, path, tip, clock)
    }

    lemma CoreIsBase()
      ensures CoreValid() <==> BaseValid() && NoGap(store.disk, RootOf(path))
      ensures BaseValid() ==> RecordsOk(store.disk, RootOf(path))
    {
      CoreIs(params, world, store.disk, path, tip, clock);
      hide Core, NoGap, RootOf, RecordsOk, StoreOk, WorldOk, InWorld, ValidPath;
    }

    ghost predicate Valid()
      reads this, store
    {
      && CoreValid()
      && MemoOk(RootOf(path), workByHash, parentByHash)
      && SidesOk(world, RootOf(path), sideBlocks)
      && OrphansOk(world, orphanByHash, orphanParent, orphanOrder)
    }

    constructor (params: Params, store: FileStore, clock: Clock, ghost world: iset<Block>, ghost path: seq<Block>)
      ensures this.params == params && this.store == store && this.world == world && this.path == path
      ensures this.clock == clock && tip == None && workByHash == map[] && parentByHash == map[]
      ensures sideBlocks == map[] && orphanByHash == map[] && orphanParent == map[] && orphanOrder == []
    {
      this.params, this.store, this.clock, this.world, this.path := params, store, clock, world, path;
      tip, sideBlocks, workByHash, parentByHash := None, map[], map[], map[];
      orphanByHash, orphanByPrev, orphanParent, orphanOrder := map[], map[], map[], [];
    }

    /** Opens a chain on a store as a crash may have left it: recovery first, then the work of the
      active blocks.  The object is valid exactly when no stored block lacks its parent, and that
      is exactly when the work found for every stored block is the right one. */
    method Open()
      requires store.Traced() && Base(params, world, Recovered(store.disk), path, TipIndex(path), clock)
      requires sideBlocks == map[] && orphanByHash == map[] && orphanParent == map[] && orphanOrder == []
      modifies this`tip, this`workByHash, this`parentByHash, store
      ensures BaseValid() && store.disk == Recovered(old(store.disk)) && tip == TipIndex(path)
      ensures MemoOk(RootOf(path), workByHash, parentByHash) && workByHash.Keys == ActiveHashes(path, |path|)
      ensures Valid() <==> NoGap(store.disk, RootOf(path))
      ensures Valid() <==> forall h :: h in store.disk.hashIndex ==>
        RecordedWork(store.disk, workByHash, sideBlocks, h) == Some(WorkOf(RootOf(path), h))
    {
      hide *;
      tip := store.LoadTip();
      BaseTip(params, world, store.disk, path, TipIndex(path), clock);
      NothingYet(world, RootOf(path));
      BaseValidIs();
      RebuildActiveChainwork();
      BaseValidIs();
      CoreIsBase();
      ValidIs();
      WorkFoundIff(params, world, store.disk, path, tip, clock, workByHash, parentByHash);
    }

    lemma ValidIs()
      ensures Valid() <==>
        && CoreValid() && MemoOk(RootOf(path), workByHash, parentByHash) && SidesOk(world, RootOf(path), sideBlocks)
        && OrphansOk(world, orphanByHash, orphanParent, orphanOrder)
    {
      hide Core, MemoOk, SidesOk, OrphansOk, RootOf;
    }

    lemma CoreValidIs()
      ensures CoreValid() <==> store.Traced() && Core(params, world, store.disk, path, tip, clock)
    {
      hide Core;
    }

    lemma BaseValidIs()
      ensures BaseValid() <==> store.Traced() && Base(params, world, store.disk, path, tip, clock)
    {
      hide Base;
    }

    method RebuildActiveChainwork()
      requires BaseValid()
      modifies this`workByHash, this`parentByHash, store
      ensures BaseValid() && store.disk == old(store.disk)
      ensures MemoOk(RootOf(path), workByHash, parentByHash) && workByHash.Keys == ActiveHashes(path, |path|)
    {
      hide *;
      workByHash, parentByHash := map[], map[];
      BaseValidIs();
      BaseTip(params, world, store.disk, path, tip, clock);
      MemoEmpty(RootOf(path));
      NoneActive(path);
      if tip.None? || tip.value.hash == ZeroHash || tip.value.height < 0 {
        return;
      }
      ghost var g := RootOf(path);
      for height := 0 to tip.value.height + 1
        invariant BaseValid() && store.disk == old(store.disk)
        invariant MemoOk(g, workByHash, parentByHash) && workByHash.Keys == ActiveHashes(path, height)
      {
        var idx := LoadIndexByHeight(height);
        RecordOf(height);
        MemoPut(g, workByHash, parentByHash, BlockHash(path[height]));
        ActiveStep(path, height);
        workByHash := workByHash[idx.value.hash := idx.value.chainWork];
        parentByHash := parentByHash[idx.value.hash := idx.value.parent];
      }
    }

    lemma RecordOf(i: int)
      requires BaseValid() && 0 <= i < |path|
      ensures var g, h := RootOf(path), BlockHash(path[i]);
        && g.HeaderHash? && h.HeaderHash? && Rooted(g, h)
        && IndexOf(g, h).hash == h && IndexOf(g, h).height == i
        && IndexOf(g, h).chainWork == WorkOf(g, h) && IndexOf(g, h).parent == ParentOf(g, h)
    {
      OnPath(path, i);
    }

    // ----- Reading the store -----

    method LoadIndexByHeight(height: int) returns (r: Option<BlockIndex>)
      requires BaseValid()
      modifies store
      ensures BaseValid() && store.disk == old(store.disk) && (old(CoreValid()) ==> CoreValid())
      ensures 0 <= height < |path| ==> r == Some(IndexOf(RootOf(path), BlockHash(path[height])))
      ensures !(0 <= height < |path|) ==> r == None
    {
      BaseHasPath(params, world, store.disk, path, tip, clock);
      hide Core, Base, HasPath, HeightMap;
      r := store.LoadIndexByHeight(height, path);
    }

    /** The height of a block of the active chain. */
    method ActiveHeight(hash: Hash) returns (r: Option<int>)
      requires CoreValid()
      modifies store
      ensures CoreValid() && store.disk == old(store.disk)
      ensures r.Some? ==> 0 <= r.value < |path| && BlockHash(path[r.value]) == hash
      ensures r.None? ==> forall i :: 0 <= i < |path| ==> BlockHash(path[i]) != hash
    {
      hide *;
      IndexedHere(hash);
      var loaded := store.LoadBlock(hash);
      if loaded.None? {
        return None;
      }
      var idx := loaded.value.1;
      CoreIsBase();
      var active := LoadIndexByHeight(idx.height);
      if active.None? || active.value.hash != hash {
        return None;
      }
      return Some(idx.height);
    }

    lemma IndexedHere(hash: Hash)
      requires CoreValid()
      ensures forall i :: 0 <= i < |path| && BlockHash(path[i]) == hash ==>
        hash in store.disk.hashIndex && hash in store.disk.blocks && store.disk.hashIndex[hash].height == i
      ensures forall i :: 0 <= i < |path| ==> IndexOf(RootOf(path), BlockHash(path[i])).hash == BlockHash(path[i])
    {
      ActiveIsIndexed(params, world, store.disk, path, tip, clock, hash);
      hide Core;
    }

    /** The entries the difficulty rule looks at, newest first. */
    method RecentEntries(startHeight: int, limit: nat) returns (recent: seq<BlockWindowEntry>)
      requires CoreValid() && startHeight == |path| - 1
      modifies store
      ensures CoreValid() && store.disk == old(store.disk)
      ensures recent == Recent(HeadersOf(path), limit)
    {
      recent := [];
      var height := startHeight;
      ghost var hs := HeadersOf(path);
      hide *;
      HeadersTip(path);
      while height >= 0 && |recent| < limit
        invariant CoreValid() && store.disk == old(store.disk)
        invariant -1 <= height < |path| && |recent| == |path| - 1 - height && |recent| <= limit
        invariant forall i :: 0 <= i < |recent| ==> recent[i] == EntryAt(hs, |hs| - 1 - i)
        decreases height
      {
        CoreIsBase();
        EntryOfRecord(height);
        var idx := LoadIndexByHeight(height);
        recent := recent + [BlockWindowEntry(idx.value.height, idx.value.time, idx.value.bits)];
        height := height - 1;
      }
      MinIs(|path|, limit);
      RecentIs(hs, limit, recent);
    }

    lemma EntryOfRecord(height: int)
      requires CoreValid() && 0 <= height < |path|
      ensures var idx, hs := IndexOf(RootOf(path), BlockHash(path[height])), HeadersOf(path);
        |hs| == |path| && BlockWindowEntry(idx.height, idx.time, idx.bits) == EntryAt(hs, height)
    {
      PathHeight(height);
      hide Core, HeightOf, WorkOf, ParentOf;
    }

    /** Compact difficulty bits the next block must carry. */
    method NextRequiredBits() returns (bits: uint32)
      requires CoreValid()
      modifies store
      ensures CoreValid() && store.disk == old(store.disk)
      ensures bits == RequiredBits(params, Recent(HeadersOf(path), DGW_PAST_BLOCKS))
    {
      CoreTip(params, world, store.disk, path, tip, clock);
      if tip.None? {
        return params.genesisBits;
      }
      var recent := RecentEntries(tip.value.height, DGW_PAST_BLOCKS);
      hide Core, CompactToBig, DarkGravityWave, Recent;
      bits := RequiredBitsFromRecent(params, recent);
    }

    /** Median time past, walking parents through the stored blocks. */
    method MedianTimePast() returns (mtp: int)
      requires CoreValid() && |path| > 0
      ensures mtp == MedianTime(Recent(HeadersOf(path), DGW_PAST_BLOCKS))
    {
      hide *;
      TipAndPath();
      var times := RecentTimes(tip.value.hash);
      MedianMatch(path, times);
      mtp := Median(times);
    }

    lemma TipAndPath()
      requires CoreValid()
      ensures HasPath(store.disk, path)
      ensures |path| > 0 ==> tip.Some? && tip.value.hash == BlockHash(path[|path| - 1])
      ensures |path| == 0 ==> tip.None?
    {
      CoreTip(params, world, store.disk, path, tip, clock);
      CoreHasPath(params, world, store.disk, path, tip, clock);
      hide Core, HasPath;
    }

    method RecentTimes(startHash: Hash) returns (times: seq<int>)
      requires HasPath(store.disk, path) && |path| > 0 && startHash == BlockHash(path[|path| - 1])
      ensures |times| == if |path| < MTP_WINDOW then |path| else MTP_WINDOW
      ensures forall k :: 0 <= k < |times| ==> times[k] == path[|path| - 1 - k].header.time
    {
      ghost var i := |path| - 1;
      times := [];
      var cur := startHash;
      assert MTP_WINDOW == 11;
      hide *;
      while |times| < MTP_WINDOW && cur != ZeroHash
        invariant 0 <= i < |path| && cur == BlockHash(path[i])
        invariant |times| == |path| - 1 - i && |times| <= MTP_WINDOW
        invariant forall k :: 0 <= k < |times| ==> times[k] == path[|path| - 1 - k].header.time
        decreases i
      {
        StoredFacts(store.disk, path, i);
        var loaded := store.LoadBlock(cur);
        var (blk, idx) := loaded.value;
        times := times + [idx.time];
        if idx.height <= 0 {
          assert i == 0 && |times| == |path|;
          break;
        }
        cur := blk.header.prev;
        i := i - 1;
      }
    }

    /** The memo and the side nodes, which already know their work. */
    method KnownWork(hash: Hash) returns (r: Option<nat>)
      modifies `workByHash, `parentByHash
      ensures old(MemoOk(RootOf(path), workByHash, parentByHash) && SidesOk(world, RootOf(path), sideBlocks)) ==>
        MemoOk(RootOf(path), workByHash, parentByHash)
      ensures r == if hash in old(workByHash) then Some(old(workByHash)[hash])
                   else if hash in sideBlocks then Some(sideBlocks[hash].chainWork) else None
      ensures r.None? ==> workByHash == old(workByHash) && parentByHash == old(parentByHash)
    {
      ghost var g := RootOf(path);
      if hash in workByHash {
        return Some(workByHash[hash]);
      }
      if hash in sideBlocks {
        var side := sideBlocks[hash];
        if MemoOk(g, workByHash, parentByHash) && SidesOk(world, g, sideBlocks) {
          assert SideOk(world, g, hash, side);
          MemoPut(g, workByHash, parentByHash, hash);
        }
        workByHash, parentByHash := workByHash[hash := side.chainWork], parentByHash[hash := side.parent];
        hide MemoOk, SidesOk, Rooted, WorkOf, HeightOf;
        return Some(side.chainWork);
      }
      return None;
    }

    /** Cumulative work of a hash: memo, side node, or recursion through the stored parents. */
    method ChainworkForHash(hash: Hash) returns (r: Option<nat>)
      requires RecordsOk(store.disk, RootOf(path))
      modifies `workByHash, `parentByHash
      ensures r == RecordedWork(store.disk, old(workByHash), sideBlocks, hash)
      ensures old(CoreValid() && MemoOk(RootOf(path), workByHash, parentByHash) && SidesOk(world, RootOf(path), sideBlocks)) ==>
        && MemoOk(RootOf(path), workByHash, parentByHash)
        && ((hash == ZeroHash || hash in old(workByHash) || hash in sideBlocks || hash in store.disk.hashIndex) ==>
              r == Some(WorkOf(RootOf(path), hash)))
      decreases Depth(hash)
    {
      hide *;
      RecordedIs(store.disk, workByHash, sideBlocks, hash);
      RecordFacts(store.disk, RootOf(path), hash);
      ghost var good := CoreValid() && MemoOk(RootOf(path), workByHash, parentByHash) && SidesOk(world, RootOf(path), sideBlocks);
      if good {
        WorkHere(hash);
      }
      if good && hash in store.disk.hashIndex {
        FirstBlock(hash);
      }
      if hash == ZeroHash {
        return Some(0);
      }
      r := KnownWork(hash);
      if r.Some? {
        return;
      }
      var loaded := store.LoadBlock(hash);
      if loaded.None? {
        return None;
      }
      var idx := loaded.value.1;
      var parentWork := ChainworkForHash(idx.parent);
      var total := (if parentWork.None? then 0 else parentWork.value) + WorkForBits(idx.bits);
      if good {
        MemoPut(RootOf(path), workByHash, parentByHash, hash);
      }
      workByHash, parentByHash := workByHash[hash := total], parentByHash[hash := idx.parent];
      return Some(total);
    }

    lemma FirstBlock(h: Hash)
      requires CoreValid() && h in store.disk.hashIndex
      ensures RootOf(path).HeaderHash?
    {
      IndexedFacts(params, world, store.disk, path, tip, clock, h);
    }

    lemma WorkHere(h: Hash)
      requires CoreValid() && MemoOk(RootOf(path), workByHash, parentByHash) && SidesOk(world, RootOf(path), sideBlocks)
      ensures (h == ZeroHash || h in workByHash || h in sideBlocks || h in store.disk.hashIndex) ==>
        RecordedWork(store.disk, workByHash, sideBlocks, h) == Some(WorkOf(RootOf(path), h))
    {
      hide *;
      if h == ZeroHash || h in workByHash || h in sideBlocks || h in store.disk.hashIndex {
        CoreIsBase();
        MemoFacts(RootOf(path), workByHash, parentByHash);
        SideFacts(world, RootOf(path), sideBlocks);
        WorkFound(store.disk, RootOf(path), workByHash, sideBlocks, h);
      }
    }

    // ----- Validation against the active tip -----

    /** A reading of the clock, which never goes back. */
    method NowUnix() returns (now: Clock)
      requires CoreValid()
      modifies `clock
      ensures CoreValid() && old(clock) <= clock == now
    {
      now :| clock <= now;
      CoreLater(params, world, store.disk, path, tip, clock, now);
      hide Core;
      clock := now;
    }

    method CheckHeader(h: Header) returns (err: Option<BlockError>)
      requires CoreValid()
      modifies `clock, store
      ensures CoreValid() && store.disk == old(store.disk) && old(clock) <= clock
      ensures err.None? <==> HeaderOk(params, HeadersOf(path), h, clock)
    {
      hide *;
      TipAndPath();
      var now := NowUnix();
      HeaderParts(params, path, h, now);
      if tip.Some? {
        if h.prev != tip.value.hash {
          return Some(BadPrevBlock);
        }
        var mtp := MedianTimePast();
        if h.time <= mtp {
          return Some(TimeTooOld);
        }
      }
      if h.time > now + MAX_FUTURE_DRIFT {
        return Some(TimeTooNew);
      }
      var expectedBits := NextRequiredBits();
      if h.bits != expectedBits {
        return Some(BadBits);
      }
      if !CheckProofOfWork(params.powValue(HeaderHash(h)), h.bits) {
        return Some(HighHash);
      }
      return None;
    }

    /** The index record of a block that extends the tip. */
    method NewIndex(block: Block) returns (idx: BlockIndex)
      requires CoreValid() && MemoOk(RootOf(path), workByHash, parentByHash) && SidesOk(world, RootOf(path), sideBlocks)
      requires Linked(path + [block])
      modifies `workByHash, `parentByHash
      ensures MemoOk(RootOf(path), workByHash, parentByHash)
      ensures idx == IndexOf(RootOf(path + [block]), BlockHash(block)) && idx.height == |path|
    {
      hide *;
      CoreValidIs();
      CoreTip(params, world, store.disk, path, tip, clock);
      TipStored(params, world, store.disk, path, tip, clock);
      NewRecord(path, block);
      NoWork(RootOf(path));
      var height, parentHash := 0, ZeroHash;
      if tip.Some? {
        height, parentHash := tip.value.height + 1, tip.value.hash;
      }
      CoreIsBase();
      var parentWork := ChainworkForHash(parentHash);
      var h := block.header;
      idx := BlockIndex(height, BlockHash(block), h.time, h.bits, h.nonce, parentHash, parentWork.value + WorkForBits(h.bits));
    }

    method ValidateActiveBlock(block: Block) returns (r: Result<(BlockIndex, Diff), BlockError>)
      requires CoreValid() && MemoOk(RootOf(path), workByHash, parentByHash) && SidesOk(world, RootOf(path), sideBlocks)
      requires block in world
      modifies `clock, `workByHash, `parentByHash, store
      ensures CoreValid() && MemoOk(RootOf(path), workByHash, parentByHash)
      ensures store.disk == old(store.disk) && old(clock) <= clock
      ensures r.Ok? <==> BlockOk(params, path, block, clock)
      ensures r.Ok? ==>
        && r.value.0 == IndexOf(RootOf(path + [block]), BlockHash(block))
        && Exact(Replay(path), block.txs, |path|, r.value.1)
        && 0 < CompactToBig(block.header.bits) <= POW_LIMIT && params.powValue(HeaderHash(block.header)) <= CompactToBig(block.header.bits)
    {
      hide Core, MemoOk, SidesOk, HeaderOk, BlockTxsOk, Replay, IndexOf, RootOf, MerkleRoot, Exact;
      if |block.txs| == 0 {
        return Err(NoTransactions);
      }
      if block.header.merkle != MerkleRoot(block.txs) {
        return Err(BadMerkleRoot);
      }
      var err := CheckHeader(block.header);
      if err.Some? {
        return Err(err.value);
      }
      OkMeetsTarget(params, HeadersOf(path), block.header, clock);
      HeaderLinks(params, world, store.disk, path, tip, clock, block);
      CoreUtxo(params, world, store.disk, path, tip, clock);
      ValidIsFresh(params, world, store.disk, path, tip, clock, block);
      var idx := NewIndex(block);
      var diff := ValidateBlockTransactions(params.txRules, store.disk.utxo, block, idx.height);
      if diff.Err? {
        return Err(diff.error);
      }
      return Ok((idx, diff.value));
    }

    // ----- Announced headers -----

    /** The context an announced batch is checked against. */
    method HeaderContext() returns (r: Option<Snapshot>)
      requires Valid()
      modifies store
      ensures Valid() && store.disk == old(store.disk)
      ensures r.None? <==> |path| == 0
      ensures r.Some? ==> TakenOf(r.value, HeadersOf(path))
    {
      assert DGW_PAST_BLOCKS == 24;
      hide *;
      TipFacts(ZeroHash);
      if tip.None? {
        return None;
      }
      var recent := RecentEntries(tip.value.height, DGW_PAST_BLOCKS);
      ContextTaken();
      Assemble();
      return Some(Snapshot(tip.value.hash, tip.value.height, recent));
    }

    lemma ContextTaken()
      requires |path| > 0
      ensures TakenOf(Snapshot(TipOf(path), |path| - 1, Recent(HeadersOf(path), DGW_PAST_BLOCKS)), HeadersOf(path))
    {
      HeadersTip(path);
      hide Recent;
    }

    /** The tip must still be the one the batch was checked against; then the chain is the same. */
    method ConfirmTip(snap: Snapshot, ghost before: seq<Block>, ghost when: Clock) returns (same: bool)
      requires Valid() && ValidPath(params, before, when) && when <= clock
      requires TakenOf(snap, HeadersOf(before))
      ensures same <==> path == before
    {
      hide *;
      TipFacts(ZeroHash);
      PathValid();
      same := tip.Some? && tip.value.hash == snap.tipHash && tip.value.height == snap.tipHeight;
      ContextIs(snap, before);
      if same {
        ValidPathPrefix(params, before, |before|, when, clock);
        assert before[..|before|] == before;
        SameTipSamePath(params, path, before, clock);
      }
    }

    /** A batch is accepted exactly when one-by-one validation accepts each header in turn. */
    method ValidateHeaderSequence(headers: seq<Header>) returns (r: Result<seq<Hash>, HeaderError>)
      requires Valid()
      modifies `clock, store
      ensures Valid() && store.disk == old(store.disk) && old(clock) <= clock
      ensures |headers| == 0 ==> r == Ok([])
      ensures |headers| > 0 && |path| == 0 ==> r == Err(NoTip)
      ensures |headers| > 0 && |path| > 0 ==> (r.Ok? <==> HeadersOk(params, HeadersOf(path), headers, clock))
      ensures r.Ok? ==> r.value == HashesOf(headers) && forall i :: 0 <= i < |headers| ==>
        0 < CompactToBig(headers[i].bits) <= POW_LIMIT && params.powValue(HeaderHash(headers[i])) <= CompactToBig(headers[i].bits)
    {
      hide *;
      NoHashes();
      if |headers| == 0 {
        return Ok([]);
      }
      var context := HeaderContext();
      if context.None? {
        return Err(NoTip);
      }
      var now := ReadClock();
      r := CheckSequence(params, context.value, headers, now, HeadersOf(path));
      if r.Err? {
        return;
      }
      PathValid();
      var same := ConfirmTip(context.value, path, clock);
      if !same {
        return Err(TipChanged);
      }
    }

    method ReadClock() returns (now: Clock)
      requires Valid()
      modifies `clock
      ensures Valid() && old(clock) <= clock == now
    {
      hide Core, MemoOk, SidesOk, OrphansOk;
      now := NowUnix();
    }

    // ----- Extending and shortening the active chain -----

    /** Connects a block exactly when it is valid on the active path. */
    method ConnectBlock(block: Block) returns (r: Result<BlockIndex, BlockError>)
      requires Valid() && block in world
      modifies `clock, `tip, `path, `workByHash, `parentByHash, store
      ensures Valid() && old(clock) <= clock
      ensures r.Ok? <==> BlockOk(params, old(path), block, clock)
      ensures path == if r.Ok? then old(path) + [block] else old(path)
      ensures r.Err? ==> tip == old(tip) && store.disk == old(store.disk)
    {
      hide Core, MemoOk, SidesOk, OrphansOk, BlockOk, Exact, IndexOf, RootOf, Saved, Replay;
      var valid := ValidateActiveBlock(block);
      if valid.Err? {
        return Err(valid.error);
      }
      var (idx, diff) := valid.value;
      ValidIsFresh(params, world, store.disk, path, tip, clock, block);
      Append(block, idx, diff);
      r := Ok(idx);
    }

    /** Files an accepted block: first the store, then the memo and the tip. */
    method Append(block: Block, idx: BlockIndex, diff: Diff)
      requires Valid() && block in world && ExtendsOk(params, path, block, clock)
      requires idx == IndexOf(RootOf(path + [block]), BlockHash(block)) && Exact(Replay(path), block.txs, |path|, diff)
      modifies `tip, `path, `workByHash, `parentByHash, store
      ensures Valid() && path == old(path) + [block] && tip == Some(idx)
    {
      hide Core, MemoOk, SidesOk, OrphansOk, ExtendsOk, Exact, IndexOf, RootOf, Saved, Replay;
      ConnectFacts(params, world, store.disk, path, tip, clock, block, diff, workByHash, parentByHash, sideBlocks);
      store.SaveBlock(block, idx, diff);
      workByHash := workByHash[idx.hash := idx.chainWork];
      parentByHash := parentByHash[idx.hash := idx.parent];
      tip := Some(idx);
      path := path + [block];
    }

    /** Puts the built-in first block on an empty chain; on any other chain it does nothing. */
    method EnsureGenesis(genesis: Block, genesisHash: Hash) returns (err: Option<GenesisError>)
      requires Valid() && genesis in world && genesis.header.merkle == MerkleRoot(genesis.txs)
      modifies `tip, `path, `workByHash, `parentByHash, store
      ensures Valid()
      ensures |old(path)| > 0 ==> err == None
      ensures |old(path)| == 0 ==> (err.None? <==> BlockHash(genesis) == genesisHash && GenesisOk(params, genesis))
      ensures |old(path)| == 0 && err.None? ==>
        0 < CompactToBig(genesis.header.bits) <= POW_LIMIT && params.powValue(HeaderHash(genesis.header)) <= CompactToBig(genesis.header.bits)
      ensures path == if |old(path)| == 0 && err.None? then [genesis] else old(path)
    {
      hide *;
      TipFacts(ZeroHash);
      if tip.Some? {
        return None;
      }
      GenesisFacts(genesis);
      var h := genesis.header;
      if BlockHash(genesis) != genesisHash {
        return Some(BadGenesisHash);
      }
      if !CheckProofOfWork(params.powValue(BlockHash(genesis)), h.bits) {
        return Some(BadGenesisPow);
      }
      var idx := BlockIndex(0, BlockHash(genesis), h.time, h.bits, h.nonce, ZeroHash, WorkForBits(h.bits));
      var diff := ValidateBlockTransactions(params.txRules, store.disk.utxo, genesis, 0);
      if diff.Err? {
        return Some(BadGenesisBlock(diff.error));
      }
      Append(genesis, idx, diff.value);
      return None;
    }

    lemma GenesisFacts(genesis: Block)
      requires Valid() && |path| == 0 && genesis in world && genesis.header.merkle == MerkleRoot(genesis.txs)
      ensures store.disk.utxo == Replay(path) == map[] && InRange(store.disk.utxo) && Sane(store.disk.utxo)
      ensures Fresh(store.disk.utxo, genesis.txs) && path + [genesis] == [genesis]
      ensures GenesisOk(params, genesis) <==>
        && CheckProofOfWork(params.powValue(BlockHash(genesis)), genesis.header.bits)
        && BlockTxsOk(params.txRules, store.disk.utxo, genesis, 0)
      ensures GenesisOk(params, genesis) <==> ExtendsOk(params, path, genesis, clock)
      ensures GenesisOk(params, genesis) ==>
        0 < CompactToBig(genesis.header.bits) <= POW_LIMIT && params.powValue(HeaderHash(genesis.header)) <= CompactToBig(genesis.header.bits)
      ensures var h := genesis.header;
        IndexOf(RootOf(path + [genesis]), BlockHash(genesis))
          == BlockIndex(0, BlockHash(genesis), h.time, h.bits, h.nonce, ZeroHash, WorkForBits(h.bits))
    {
      CoreUtxo(params, world, store.disk, path, tip, clock);
      TargetMet(params, genesis.header);
      hide Core, MemoOk, SidesOk, OrphansOk, BlockTxsOk, CheckProofOfWork, MerkleRoot;
      assert path + [genesis] == [genesis];
    }

    /** Disconnects the tip; the first block stays. */
    method DisconnectTip() returns (ok: bool)
      requires Valid()
      modifies `tip, `path, `workByHash, `parentByHash, store
      ensures Valid()
      ensures ok <==> |old(path)| > 1
      ensures path == if ok then old(path)[..|old(path)| - 1] else old(path)
      ensures !ok ==> tip == old(tip) && store.disk == old(store.disk)
    {
      hide Core, Base, NoGap, RecordsOk, MemoOk, SidesOk, OrphansOk, IndexOf, RootOf, TipIndex, Disconnected, Apply;
      CoreTip(params, world, store.disk, path, tip, clock);
      if tip.None? || tip.value.hash == ZeroHash || tip.value.height <= 0 {
        return false;
      }
      var idx := tip.value;
      DisconnectFacts(params, world, store.disk, path, tip, clock, workByHash, parentByHash, sideBlocks);
      var loaded := store.LoadBlock(idx.hash);
      var undo := store.disk.undo[idx.hash];
      CoreIsBase();
      var prevIdx := LoadIndexByHeight(idx.height - 1);
      if prevIdx.value.hash != loaded.value.0.header.prev {
        return false;
      }
      store.DisconnectBlock(idx.hash, prevIdx.value, undo);
      tip := prevIdx;
      workByHash, parentByHash := workByHash - {idx.hash}, parentByHash - {idx.hash};
      path := path[..|path| - 1];
      ok := true;
    }

    // ----- The orphan pool -----

    ghost predicate PoolOk()
      reads `orphanByHash, `orphanParent, `orphanOrder
    {
      OrphansOk(world, orphanByHash, orphanParent, orphanOrder)
    }

    method RemoveOrphan(hash: Hash)
      requires PoolOk()
      modifies `orphanByHash, `orphanByPrev, `orphanParent, `orphanOrder
      ensures PoolOk() && orphanByHash == old(orphanByHash) - {hash} && orphanParent == old(orphanParent) - {hash}
      ensures orphanOrder == Without(old(orphanOrder), hash)
      ensures hash in old(orphanByHash) ==> hash in old(orphanParent) && |orphanOrder| == |old(orphanOrder)| - 1
      ensures orphanByPrev == if hash in old(orphanByHash) then Unfiled(old(orphanByPrev), old(orphanParent)[hash], hash) else old(orphanByPrev)
    {
      hide *;
      PoolOkIs();
      if hash !in orphanByHash {
        NotFiled(world, orphanByHash, orphanParent, orphanOrder, hash);
        return;
      }
      OrphanDropped(world, orphanByHash, orphanParent, orphanOrder, hash);
      orphanByHash := orphanByHash - {hash};
      var parent := orphanParent[hash];
      orphanParent := orphanParent - {hash};
      UnfileChild(parent, hash);
      orphanOrder := RemoveFirst(orphanOrder, hash);
      PoolOkIs();
    }

    method UnfileChild(parent: Hash, hash: Hash)
      modifies `orphanByPrev
      ensures orphanByPrev == Unfiled(old(orphanByPrev), parent, hash)
    {
      if parent != ZeroHash {
        var children := if parent in orphanByPrev then orphanByPrev[parent] else [];
        WithoutFacts(children, hash);
        children := RemoveFirst(children, hash);
        hide Without;
        if |children| == 0 {
          orphanByPrev := orphanByPrev - {parent};
        } else {
          orphanByPrev := orphanByPrev[parent := children];
        }
      }
    }

    /** Files an orphan, dropping the oldest when the pool is full. */
    method AddOrphan(hash: Hash, parent: Hash, block: Block)
      requires PoolOk() && BlockHash(block) == hash && block in world
      modifies `orphanByHash, `orphanByPrev, `orphanParent, `orphanOrder
      ensures PoolOk() && hash in orphanByHash
      ensures hash in old(orphanByHash) ==>
        orphanByHash == old(orphanByHash) && orphanByPrev == old(orphanByPrev) && orphanOrder == old(orphanOrder)
      ensures hash !in old(orphanByHash) ==>
        var full := |old(orphanOrder)| >= MAX_ORPHAN_BLOCKS;
        && orphanOrder == (if full then old(orphanOrder)[1..] else old(orphanOrder)) + [hash]
        && orphanByHash == (if full then old(orphanByHash) - {old(orphanOrder)[0]} else old(orphanByHash))[hash := block]
        && orphanParent == (if full then old(orphanParent) - {old(orphanOrder)[0]} else old(orphanParent))[hash := parent]
        && (full ==> old(orphanOrder)[0] in old(orphanParent))
        && var lists := if full then Unfiled(old(orphanByPrev), old(orphanParent)[old(orphanOrder)[0]], old(orphanOrder)[0]) else old(orphanByPrev);
        orphanByPrev == lists[parent := WaitingFor(lists, parent) + [hash]]
    {
      hide *;
      if hash in orphanByHash {
        return;
      }
      PoolOkIs();
      if |orphanOrder| >= MAX_ORPHAN_BLOCKS {
        RemoveOrphan(orphanOrder[0]);
        PoolOkIs();
      }
      OrphanAdded(world, orphanByHash, orphanParent, orphanOrder, hash, parent, block);
      WaitingIs(orphanByPrev, parent);
      orphanByHash := orphanByHash[hash := block];
      var siblings := if parent in orphanByPrev then orphanByPrev[parent] else [];
      orphanByPrev := orphanByPrev[parent := siblings + [hash]];
      orphanParent := orphanParent[hash := parent];
      orphanOrder := orphanOrder + [hash];
      PoolOkIs();
    }

    lemma PoolOkIs()
      ensures PoolOk() <==> OrphansOk(world, orphanByHash, orphanParent, orphanOrder)
      ensures PoolOk() ==>
        |orphanOrder| <= MAX_ORPHAN_BLOCKS && orphanByHash.Keys == orphanParent.Keys
        && (|orphanOrder| > 0 ==> orphanOrder[0] in orphanByHash && Without(orphanOrder, orphanOrder[0]) == orphanOrder[1..])
      ensures MAX_ORPHAN_BLOCKS == 128
    {
    }

    /** Connects the orphans filed under `cur` that extend the tip, and says which. */
    method AcceptChildren(cur: Hash) returns (accepted: seq<Hash>)
      requires Valid()
      modifies `clock, `tip, `path, `workByHash, `parentByHash, `sideBlocks
      modifies `orphanByHash, `orphanByPrev, `orphanParent, `orphanOrder, store
      ensures Valid() && old(clock) <= clock
      ensures FromPool(old(path), path, old(orphanByHash), orphanByHash)
      ensures |orphanByHash| + |accepted| == |old(orphanByHash)|
      ensures FirstFrom(old(path), path, WaitingFor(old(orphanByPrev), cur))
      ensures sideBlocks == Unlisted(old(sideBlocks), old(orphanByHash), orphanByHash)
      ensures Keeps(old(orphanByPrev), orphanByPrev, orphanByHash)
      ensures LeftForChain(old(orphanByHash), orphanByHash, path)
      ensures forall a :: a in accepted ==> IsActive(path, a)
      ensures path != old(path) ==> TipOf(path) in accepted
      ensures path == old(path) ==>
        && orphanByHash == old(orphanByHash) && orphanByPrev == old(orphanByPrev) && accepted == []
        && NoneEligible(params, old(orphanByHash), old(path), old(clock), WaitingFor(old(orphanByPrev), cur))
    {
      ghost var pool, base, start, lists := orphanByHash, path, clock, orphanByPrev;
      accepted := [];
      var children := if cur in orphanByPrev then orphanByPrev[cur] else [];
      AcceptStart(params, pool, orphanByPrev, base, start, cur, children);
      hide *;
      UnlistedSelf(sideBlocks, pool);
      KeepsSelf(lists, pool);
      LeftSelf(pool, base);
      for i := 0 to |children|
        invariant Valid() && start <= clock && FromPool(base, path, pool, orphanByHash)
        invariant |orphanByHash| + |accepted| == |pool|
        invariant FirstFrom(base, path, children)
        invariant sideBlocks == Unlisted(old(sideBlocks), pool, orphanByHash) && Keeps(lists, orphanByPrev, orphanByHash)
        invariant forall a :: a in accepted ==> IsActive(path, a)
        invariant LeftForChain(pool, orphanByHash, path)
        invariant path != base ==> TipOf(path) in accepted
        invariant path == base ==>
          && orphanByHash == pool && orphanByPrev == lists && accepted == []
          && NoneEligible(params, pool, base, start, children[..i])
      {
        ghost var here, left, filed := path, orphanByHash, orphanByPrev;
        FromPoolGrows(base, here, pool, left);
        var took := AcceptChild(children[i]);
        AcceptNext(params, pool, base, start, here, left, path, orphanByHash, clock, children, i, took);
        if took {
          UnlistedStep(old(sideBlocks), pool, left, children[i]);
          KeepsTrans(lists, filed, orphanByPrev, left, orphanByHash);
          MoreActive(here, left[children[i]], accepted);
          LeftStep(pool, left, here, children[i], left[children[i]]);
          accepted := accepted + [children[i]];
        }
      }
      AcceptEnd(old(orphanByPrev), cur, children);
    }

    /** Connects one orphan exactly when it is still waiting, extends the tip and is valid; then it
      leaves the pool, its list and the side list. */
    method AcceptChild(orphanHash: Hash) returns (took: bool)
      requires Valid()
      modifies `clock, `tip, `path, `workByHash, `parentByHash, `sideBlocks
      modifies `orphanByHash, `orphanByPrev, `orphanParent, `orphanOrder, store
      ensures Valid() && old(clock) <= clock
      ensures took <==> Eligible(params, old(orphanByHash), old(path), clock, orphanHash)
      ensures took ==>
        && orphanHash in old(orphanByHash) && path == old(path) + [old(orphanByHash)[orphanHash]]
        && orphanByHash == old(orphanByHash) - {orphanHash} && BlockHash(old(orphanByHash)[orphanHash]) == orphanHash
        && sideBlocks == old(sideBlocks) - {orphanHash} && Keeps(old(orphanByPrev), orphanByPrev, orphanByHash)
      ensures !took ==>
        && path == old(path) && orphanByHash == old(orphanByHash) && orphanByPrev == old(orphanByPrev)
        && sideBlocks == old(sideBlocks)
    {
      hide *;
      took := false;
      EligibleIs(params, orphanByHash, path, clock, orphanHash);
      TipFacts(orphanHash);
      if orphanHash !in orphanByHash {
        NotEligible(params, orphanByHash, path, clock, orphanHash);
        return;
      }
      var orphanBlock := orphanByHash[orphanHash];
      if tip.None? || tip.value.hash != orphanBlock.header.prev {
        NotEligible(params, orphanByHash, path, clock, orphanHash);
        return;
      }
      OrphanInWorld(orphanHash);
      ghost var pool, base := orphanByHash, path;
      var r := ConnectBlock(orphanBlock);
      EligibleIs(params, pool, base, clock, orphanHash);
      if r.Err? {
        return;
      }
      DropAccepted(orphanHash);
      took := true;
    }

    lemma OrphanInWorld(h: Hash)
      requires Valid() && h in orphanByHash
      ensures orphanByHash[h] in world && BlockHash(orphanByHash[h]) == h
    {
    }

    /** A connected orphan leaves the pool and the side list. */
    method DropAccepted(hash: Hash)
      requires Valid() && hash in orphanByHash
      modifies `sideBlocks, `orphanByHash, `orphanByPrev, `orphanParent, `orphanOrder
      ensures Valid() && orphanByHash == old(orphanByHash) - {hash} && sideBlocks == old(sideBlocks) - {hash}
      ensures Keeps(old(orphanByPrev), orphanByPrev, orphanByHash)
    {
      hide Core, MemoOk, SidesOk, OrphansOk, RootOf, Keeps, Unfiled, Without;
      ghost var lists, parents := orphanByPrev, orphanParent;
      RemoveOrphan(hash);
      UnfiledKeeps(lists, parents[hash], hash, orphanByHash);
      SidesFewer(world, RootOf(path), sideBlocks, {hash});
      sideBlocks := sideBlocks - {hash};
    }

    /** After a block is connected, its waiting descendants follow: what is added comes out of the
      orphan pool, the first of it from the list under the block; and nothing is added exactly when
      no orphan filed there is eligible, and then only that list goes.  Called for the tip, it leaves
      the chain at rest: no orphan that waited on the new tip fits it. */
    method AcceptOrphanChildren(parentHash: Hash)
      requires Valid()
      modifies `clock, `tip, `path, `workByHash, `parentByHash, `sideBlocks
      modifies `orphanByHash, `orphanByPrev, `orphanParent, `orphanOrder, store
      ensures Valid() && old(clock) <= clock && old(path) <= path
      ensures FromPool(old(path), path, old(orphanByHash), orphanByHash)
      ensures FirstFrom(old(path), path, WaitingFor(old(orphanByPrev), parentHash))
      ensures sideBlocks == Unlisted(old(sideBlocks), old(orphanByHash), orphanByHash)
      ensures parentHash !in orphanByPrev && orphanByPrev.Keys <= old(orphanByPrev).Keys
      ensures LeftForChain(old(orphanByHash), orphanByHash, path)
      ensures path == old(path) ==>
        && orphanByHash == old(orphanByHash) && orphanByPrev == old(orphanByPrev) - {parentHash} && sideBlocks == old(sideBlocks)
        && NoneEligible(params, old(orphanByHash), old(path), old(clock), WaitingFor(old(orphanByPrev), parentHash))
      ensures path != old(path) && |old(path)| > 0 ==>
        !NoneEligible(params, old(orphanByHash), old(path), clock, WaitingFor(old(orphanByPrev), parentHash))
      ensures |old(path)| > 0 && parentHash == TipOf(old(path)) ==>
        NoneEligible(params, orphanByHash, path, old(clock), WaitingFor(old(orphanByPrev), TipOf(path)))
    {
      ghost var pool, base, xs, lists0, start := orphanByHash, path, WaitingFor(orphanByPrev, parentHash), orphanByPrev, clock;
      hide *;
      FromPoolSelf(base, pool);
      FirstFromSelf(base, xs);
      UnlistedSelf(sideBlocks, pool);
      LeftSelf(pool, base);
      ghost var onTip := |base| > 0 && parentHash == TipOf(base);
      if onTip {
        SettlingStart(params, lists0, start, base, pool);
      }
      ghost var done: set<Hash> := {};
      var queue := [parentHash];
      while |queue| > 0
        invariant Valid() && start <= clock && FromPool(base, path, pool, orphanByHash) && FirstFrom(base, path, xs)
        invariant sideBlocks == Unlisted(old(sideBlocks), pool, orphanByHash) && orphanByPrev.Keys <= lists0.Keys
        invariant path == base ==> orphanByHash == pool
        invariant LeftForChain(pool, orphanByHash, path)
        invariant (queue == [parentHash] && done == {}) || parentHash !in orphanByPrev
        invariant onTip ==> Settling(params, lists0, start, path, orphanByHash, orphanByPrev, queue, done)
        invariant
          || (queue == [parentHash] && path == base && orphanByPrev == lists0 && clock == start)
          || path != base
          || (queue == [] && orphanByPrev == lists0 - {parentHash} && NoneEligible(params, pool, base, start, xs))
        decreases |orphanByHash| + |queue|
      {
        var cur := queue[0];
        ghost var all := queue;
        queue := queue[1..];
        ghost var here, left, lists, when := path, orphanByHash, orphanByPrev, clock;
        FromPoolGrows(base, here, pool, left);
        var accepted := AcceptChildren(cur);
        FromPoolTrans(base, here, path, pool, left, orphanByHash);
        FromPoolGrows(here, path, left, orphanByHash);
        FirstFromGrows(base, here, path, xs);
        UnlistedTrans(old(sideBlocks), pool, left, orphanByHash);
        LeftTrans(pool, left, orphanByHash, here, path);
        KeepsKeys(lists, orphanByPrev, orphanByHash);
        if onTip {
          TipFacts(ZeroHash);
          PathLinked();
          SettlingStep(params, lists0, start, here, left, lists, all, done, when, path, orphanByHash, orphanByPrev, accepted);
        }
        done := done + {cur};
        queue := queue + accepted;
        ForgetChildren(cur);
      }
      FromPoolGrows(base, path, pool, orphanByHash);
      PathValid();
      if path != base && |base| > 0 {
        FirstEligible(params, base, path, pool, orphanByHash, clock, xs);
      }
      UnlistedSelf(old(sideBlocks), pool);
      if onTip {
        SettlingEnd(params, lists0, start, path, orphanByHash, orphanByPrev, done);
      }
    }

    method ForgetChildren(cur: Hash)
      requires Valid()
      modifies `orphanByPrev
      ensures Valid() && orphanByPrev == old(orphanByPrev) - {cur}
    {
      hide Core, MemoOk, SidesOk, OrphansOk;
      orphanByPrev := orphanByPrev - {cur};
    }

    // ----- Switching branches -----

    /** Disconnects the last n blocks. */
    method DisconnectN(n: nat) returns (ok: bool)
      requires Valid()
      modifies `tip, `path, `workByHash, `parentByHash, store
      ensures Valid() && path <= old(path)
      ensures n < |old(path)| ==> ok && |path| == |old(path)| - n
    {
      hide *;
      for i := 0 to n
        invariant Valid() && path <= old(path)
        invariant n < |old(path)| ==> |path| == |old(path)| - i
      {
        ok := DisconnectTip();
        if !ok {
          return;
        }
      }
      ok := true;
    }

    /** Connects blocks given newest first.  Blocks just removed from a valid path go back. */
    method ReconnectBlocks(disconnected: seq<Block>, ghost target: seq<Block>, ghost when: Clock) returns (ok: bool)
      requires Valid() && InWorld(world, disconnected)
      modifies `clock, `tip, `path, `workByHash, `parentByHash, store
      ensures Valid() && old(clock) <= clock
      ensures Restores(params, old(path), disconnected, target, when, old(clock)) ==> ok && path == target
      ensures Unlinked(old(path), disconnected) ==> path == old(path)
    {
      hide *;
      ghost var good := Restores(params, path, disconnected, target, when, clock);
      ghost var before, n := path, |disconnected|;
      InWorldAt(world, disconnected);
      RestoresEnds(params, before, disconnected, target, when, clock);
      var i := |disconnected| - 1;
      while i >= 0
        invariant Valid() && old(clock) <= clock && -1 <= i < n
        invariant good ==> |path| == |before| + n - 1 - i && path <= target
        invariant Unlinked(before, disconnected) ==> path == before && i == n - 1
        decreases i
      {
        RestoresNext(params, before, disconnected, target, when, old(clock), path, i);
        ok := ReconnectBlock(disconnected[i], target, when);
        if !ok {
          return;
        }
        i := i - 1;
      }
      ok := true;
    }

    /** The next block of a valid path always goes on. */
    method ReconnectBlock(block: Block, ghost target: seq<Block>, ghost when: Clock) returns (ok: bool)
      requires Valid() && block in world
      modifies `clock, `tip, `path, `workByHash, `parentByHash, store
      ensures Valid() && old(clock) <= clock
      ensures path == if ok then old(path) + [block] else old(path)
      ensures ok && |old(path)| > 0 ==> block.header.prev == TipOf(old(path))
      ensures |old(path)| > 0 && old(path) + [block] <= target && ValidPath(params, target, when) && when <= old(clock) ==> ok
    {
      hide *;
      ghost var now := path;
      var r := ConnectBlock(block);
      ok := r.Ok?;
      if ok {
        OkIsLinked(params, now, block, clock);
      } else if |now| > 0 && now + [block] <= target && ValidPath(params, target, when) && when <= clock {
        assert target[..|now|] == now && target[|now|] == block;
        StillOk(params, target, |now|, when, clock);
      }
    }

    /** Disconnects down to the fork; `removed` is what came off, newest first. */
    method DisconnectTo(forkHeight: int) returns (removed: seq<Block>)
      requires Valid() && 0 <= forkHeight < |path|
      modifies `tip, `path, `workByHash, `parentByHash, store
      ensures Valid() && path == old(path)[..forkHeight + 1]
      ensures old(path) == path + Reverse(removed) && InWorld(world, removed)
    {
      removed := [];
      hide Core, MemoOk, SidesOk, OrphansOk, Reverse;
      CoreTip(params, world, store.disk, path, tip, clock);
      ReverseNone<Block>();
      while tip.Some? && tip.value.height > forkHeight
        invariant Valid() && forkHeight < |path| && path <= old(path)
        invariant old(path) == path + Reverse(removed) && InWorld(world, removed)
        invariant tip.Some? && tip.value.height == |path| - 1
        decreases |path|
      {
        var block := LoadTipBlock();
        ReverseSnoc(removed, block);
        var ok := DisconnectTip();
        CoreTip(params, world, store.disk, path, tip, clock);
        removed := removed + [block];
      }
    }

    method LoadTipBlock() returns (block: Block)
      requires Valid() && |path| > 0
      ensures block == path[|path| - 1] && block in world
    {
      CoreTip(params, world, store.disk, path, tip, clock);
      CoreHasPath(params, world, store.disk, path, tip, clock);
      StoredFacts(store.disk, path, |path| - 1);
      hide StoreOk, IndexClosed, ValidPath, WorldOk, HasPath, MemoOk, SidesOk, OrphansOk, TipIndex;
      var loaded := store.LoadBlock(tip.value.hash);
      block := loaded.value.0;
    }

    /** The side nodes from a branch tip back to the block whose parent is active. */
    method BuildBranch(sideTipHash: Hash) returns (r: Option<(seq<SideNode>, Hash, int)>)
      requires Valid() && sideTipHash in sideBlocks
      modifies store
      ensures Valid() && store.disk == old(store.disk)
      ensures r.None? ==> BranchPath(sideBlocks, path, sideTipHash) == None
      ensures r.Some? ==>
        && var (nodes, forkHash, fork) := r.value;
        && 0 <= fork < |path| && forkHash == BlockHash(path[fork])
        && |nodes| > 0 && nodes[|nodes| - 1].parent == forkHash && NodesOk(world, sideBlocks, sideTipHash, nodes)
        && BranchPath(sideBlocks, path, sideTipHash) == Some(path[..fork + 1] + AttachBlocks(nodes))
        && (IsActive(path, nodes[|nodes| - 1].hash) ==> IsActive(path, sideTipHash))
    {
      hide Core, MemoOk, OrphansOk, BranchPath, AttachBlocks, Rooted, HeightOf, WorkOf, NodesOk;
      ghost var g := RootOf(path);
      var cur := sideBlocks[sideTipHash];
      var attachRev: seq<SideNode> := [];
      assert SideOk(world, g, sideTipHash, cur);
      BranchStart(sideBlocks, path, sideTipHash);
      while true
        invariant Valid() && store.disk == old(store.disk)
        invariant cur.hash in sideBlocks && cur == sideBlocks[cur.hash] && SideOk(world, g, cur.hash, cur)
        invariant cur.hash == sideTipHash || Ancestor(cur.hash, sideTipHash)
        invariant IsActive(path, cur.hash) ==> IsActive(path, sideTipHash)
        invariant attachRev == [] ==> cur.hash == sideTipHash
        invariant attachRev != [] ==>
          && cur.hash != sideTipHash && NodesOk(world, sideBlocks, sideTipHash, attachRev)
          && attachRev[|attachRev| - 1].parent == cur.hash
        invariant BranchPath(sideBlocks, path, sideTipHash) == Extended(BranchPath(sideBlocks, path, cur.hash), attachRev)
        decreases cur.hash
      {
        BranchStep(world, sideBlocks, path, sideTipHash, attachRev, cur);
        ghost var nodes := attachRev;
        attachRev := attachRev + [cur];
        var h := ActiveHeight(cur.parent);
        if h.Some? {
          PathLinked();
          BranchEnds(sideBlocks, path, sideTipHash, nodes, cur, h.value);
          return Some((attachRev, cur.parent, h.value));
        }
        if cur.parent !in sideBlocks {
          return None;
        }
        cur := sideBlocks[cur.parent];
      }
    }

    /** Connects one branch node and lets waiting orphans follow it. */
    method AttachNode(node: SideNode) returns (err: Option<BlockError>)
      requires Valid() && node.block in world && node.hash == BlockHash(node.block)
      modifies `clock, `tip, `path, `workByHash, `parentByHash, `sideBlocks
      modifies `orphanByHash, `orphanByPrev, `orphanParent, `orphanOrder, store
      ensures Valid() && old(clock) <= clock
      ensures err.None? ==>
        WentUp(params, old(path), node.block, old(orphanByHash), old(orphanByPrev), old(clock), path, orphanByHash, orphanByPrev, clock)
      ensures err.None? && |old(path)| > 0 ==> node.block.header.prev == TipOf(old(path))
      ensures orphanByHash.Keys <= old(orphanByHash).Keys && sideBlocks == Unlisted(old(sideBlocks), old(orphanByHash), orphanByHash)
      ensures err.None? ==> node.hash !in orphanByPrev
      ensures err.Some? ==>
        && path == old(path) && !BlockOk(params, old(path), node.block, clock)
        && orphanByHash == old(orphanByHash) && orphanByPrev == old(orphanByPrev)
    {
      hide *;
      ghost var before, pool, lists, when := path, orphanByHash, orphanByPrev, clock;
      UnlistedSelf(sideBlocks, pool);
      var r := ConnectBlock(node.block);
      if r.Err? {
        return Some(r.error);
      }
      OkIsLinked(params, before, node.block, clock);
      ghost var here, now := path, clock;
      AcceptOrphanChildren(node.hash);
      if path == here {
        NoneEarlier(params, pool, here, when, now, WaitingFor(lists, node.hash));
      }
      FromPoolGrows(here, path, pool, orphanByHash);
      WentUpIs(params, before, node.block, pool, lists, when, path, orphanByHash, orphanByPrev, clock);
      err := None;
    }

    /** Connects a branch from the fork up.  It either gets through, or stops with the blocks
      before the failing one connected and `strayed` orphan blocks on top of them: an orphan that
      slips in below the branch tip makes the next branch block fail.  If none strayed, stopping
      means that some branch block is invalid.  Orphans stray only if a waiting one fits below the
      branch tip, and always if one fits already by the clock at the start. */
    method AttachBranch(attachRev: seq<SideNode>, ghost sides: map<Hash, SideNode>, ghost tipHash: Hash)
      returns (err: Option<BlockError>, connected: nat, ghost strayed: nat)
      requires Valid() && NodesOk(world, sides, tipHash, attachRev)
      requires |path| > 0 && attachRev[|attachRev| - 1].parent == TipOf(path)
      modifies `clock, `tip, `path, `workByHash, `parentByHash, `sideBlocks
      modifies `orphanByHash, `orphanByPrev, `orphanParent, `orphanOrder, store
      ensures Valid() && old(clock) <= clock
      ensures var target := old(path) + AttachBlocks(attachRev);
        && (err.None? ==> target <= path)
        && (err.Some? ==> connected < |attachRev| && PartWay(old(path), AttachBlocks(attachRev), connected, strayed, path))
        && (err.Some? && strayed == 0 ==> !ValidPath(params, target, old(clock)))
        && (err.Some? && strayed > 0 ==> Strays(params, old(orphanByHash), old(orphanByPrev), target, |old(path)|, clock))
        && (Strays(params, old(orphanByHash), old(orphanByPrev), target, |old(path)|, old(clock)) ==> err.Some? && strayed > 0)
      ensures orphanByHash.Keys <= old(orphanByHash).Keys && sideBlocks == Unlisted(old(sideBlocks), old(orphanByHash), orphanByHash)
      ensures err.Some? && strayed == 0 ==> sideBlocks == old(sideBlocks) && orphanByHash == old(orphanByHash)
      ensures err.None? ==> tipHash !in orphanByPrev
    {
      ghost var byHash, byPrev, base, blocks, start := orphanByHash, orphanByPrev, path, AttachBlocks(attachRev), clock;
      ghost var target := base + blocks;
      hide *;
      TipFacts(ZeroHash);
      PathLinked();
      BranchLinked(base, attachRev, sides, tipHash, world);
      assert target[..|base|] == base;
      ClimbStart(params, target, |base|, byHash, byPrev, start);
      UnlistedSelf(sideBlocks, byHash);
      FirstNode(world, sides, tipHash, attachRev);
      connected, strayed := 0, 0;
      var i := |attachRev| - 1;
      while i >= 0
        invariant Valid() && -1 <= i < |attachRev| && connected == |attachRev| - 1 - i
        invariant orphanByHash.Keys <= byHash.Keys && sideBlocks == Unlisted(old(sideBlocks), byHash, orphanByHash)
        invariant connected > 0 ==> attachRev[i + 1].hash !in orphanByPrev
        invariant Climbing(params, target, |base|, byHash, byPrev, start, |base| + connected, strayed, path, orphanByHash, orphanByPrev, clock)
        decreases i
      {
        PathValid();
        ClimbParts(params, base, blocks, byHash, byPrev, start, connected, strayed, path, orphanByHash, orphanByPrev, clock);
        NodeFacts(world, sides, tipHash, attachRev, i);
        NextBlock(params, base, attachRev, i, strayed, path, clock, sides, tipHash, world, target);
        ghost var before, pool, lists, when := path, orphanByHash, orphanByPrev, clock;
        err := AttachNode(attachRev[i]);
        UnlistedTrans(old(sideBlocks), byHash, pool, orphanByHash);
        if err.Some? {
          PathValid();
          ClimbStops(params, target, |base|, byHash, byPrev, start, |base| + connected, strayed, path, pool, lists, when, clock);
          UnlistedSelf(old(sideBlocks), byHash);
          return;
        }
        PartWayLength(base, blocks, connected, strayed, before);
        ClimbStep(params, target, |base|, byHash, byPrev, start, |base| + connected, before, pool, lists, when,
                  path, orphanByHash, orphanByPrev, clock);
        strayed := |path| - |before| - 1;
        connected := connected + 1;
        i := i - 1;
      }
      ClimbParts(params, base, blocks, byHash, byPrev, start, connected, strayed, path, orphanByHash, orphanByPrev, clock);
      ClimbEnds(params, target, |base|, byHash, byPrev, start, strayed, path, orphanByHash, orphanByPrev, clock);
      err := None;
    }

    /** Forgets exactly the side blocks more than 288 below the tip. */
    method PruneSideBlocks()
      requires Valid()
      modifies `sideBlocks
      ensures Valid()
      ensures sideBlocks == if tip.None? then old(sideBlocks) else KeptFrom(old(sideBlocks), tip.value.height - MAX_SIDE_CHAIN_DEPTH)
    {
      ghost var before := sideBlocks;
      hide Core, MemoOk, SidesOk, OrphansOk, CoreValid, RootOf;
      if tip.None? || |sideBlocks| == 0 {
        return;
      }
      var minHeight := tip.value.height - MAX_SIDE_CHAIN_DEPTH;
      var todo := sideBlocks.Keys;
      PruneStart(before, minHeight);
      hide KeptFrom;
      while todo != {}
        invariant Valid() && Pruned(before, minHeight, todo, sideBlocks)
        decreases todo
      {
        var hash :| hash in todo;
        PruneNext(before, minHeight, todo, sideBlocks, hash);
        todo := todo - {hash};
        if sideBlocks[hash].height < minHeight {
          SidesFewer(world, RootOf(path), sideBlocks, {hash});
          sideBlocks := sideBlocks - {hash};
        }
      }
      PruneEnd(before, minHeight, sideBlocks);
    }

    /** The nodes of an activated branch are side blocks no more. */
    method DropNodes(nodes: seq<SideNode>)
      requires Valid()
      modifies `sideBlocks
      ensures Valid() && sideBlocks == old(sideBlocks) - NodeHashes(nodes, |nodes|)
    {
      ghost var before := sideBlocks;
      hide *;
      NoHashesYet(before, nodes);
      for i := 0 to |nodes|
        invariant Valid() && sideBlocks == before - NodeHashes(nodes, i)
      {
        NodeHashesStep(nodes, i);
        DropAlso(before, NodeHashes(nodes, i), nodes[i].hash);
        DropSide(nodes[i].hash);
      }
    }

    method DropSide(hash: Hash)
      requires Valid()
      modifies `sideBlocks
      ensures Valid() && sideBlocks == old(sideBlocks) - {hash}
    {
      hide Core, MemoOk, SidesOk, OrphansOk, CoreValid, RootOf;
      SidesFewer(world, RootOf(path), sideBlocks, {hash});
      sideBlocks := sideBlocks - {hash};
    }

    /** The branch starts at the tip: connect it, or take back what was connected. */
    method ExtendByBranch(attachRev: seq<SideNode>, ghost sides: map<Hash, SideNode>, ghost tipHash: Hash)
      returns (err: Option<BlockError>, ghost connected: nat, ghost strayed: nat)
      requires Valid() && NodesOk(world, sides, tipHash, attachRev)
      requires |path| > 0 && attachRev[|attachRev| - 1].parent == TipOf(path)
      modifies `clock, `tip, `path, `workByHash, `parentByHash, `sideBlocks
      modifies `orphanByHash, `orphanByPrev, `orphanParent, `orphanOrder, store
      ensures Valid() && old(clock) <= clock
      ensures var blocks := AttachBlocks(attachRev);
        && (err.None? ==> old(path) + blocks <= path)
        && (err.Some? ==> Stranded(old(path), blocks, connected, strayed, path))
        && (err.Some? && strayed == 0 ==> !ValidPath(params, old(path) + blocks, old(clock)))
        && (err.Some? && strayed > 0 ==> Strays(params, old(orphanByHash), old(orphanByPrev), old(path) + blocks, |old(path)|, clock))
        && (Strays(params, old(orphanByHash), old(orphanByPrev), old(path) + blocks, |old(path)|, old(clock)) ==> err.Some? && strayed > 0)
      ensures orphanByHash.Keys <= old(orphanByHash).Keys && sideBlocks == Unlisted(old(sideBlocks), old(orphanByHash), orphanByHash)
      ensures err.Some? && strayed == 0 ==> sideBlocks == old(sideBlocks) && orphanByHash == old(orphanByHash)
      ensures err.None? ==> tipHash !in orphanByPrev
    {
      hide *;
      var count;
      err, count, strayed := AttachBranch(attachRev, sides, tipHash);
      connected := count;
      if err.Some? {
        ghost var stuck := path;
        PartWayLength(old(path), AttachBlocks(attachRev), count, strayed, path);
        var ok := DisconnectN(count);
        TakeBack(old(path), AttachBlocks(attachRev), count, strayed, stuck, path);
      }
    }

    /** Takes back a partly connected branch and puts the old blocks on again. */
    method RestoreOldBranch(connected: nat, removed: seq<Block>, ghost fork: seq<Block>, ghost blocks: seq<Block>,
                            ghost strayed: nat, ghost target: seq<Block>, ghost when: Clock)
      requires Valid() && InWorld(world, removed) && |fork| > 0 && |removed| > 0
      requires PartWay(fork, blocks, connected, strayed, path)
      requires target == fork + Reverse(removed) && ValidPath(params, target, when) && when <= clock
      modifies `clock, `tip, `path, `workByHash, `parentByHash, store
      ensures Valid() && old(clock) <= clock
      ensures if strayed == 0 then path == target else Stranded(fork, blocks, connected, strayed, path)
    {
      hide *;
      ghost var stuck := path;
      PartWayLength(fork, blocks, connected, strayed, path);
      var ok := DisconnectN(connected);
      TakeBack(fork, blocks, connected, strayed, stuck, path);
      PathValid();
      OffTheFork(params, fork, removed, target, when, blocks, connected, strayed, path, clock);
      ok := ReconnectBlocks(removed, target, when);
    }

    /** The branch starts below the tip: disconnect to the fork, connect the branch, and on
      failure take back what was connected and put the old blocks on again. */
    method SwitchToBranch(attachRev: seq<SideNode>, forkHeight: int, ghost sides: map<Hash, SideNode>, ghost tipHash: Hash)
      returns (err: Option<BlockError>, ghost connected: nat, ghost strayed: nat)
      requires Valid() && NodesOk(world, sides, tipHash, attachRev) && 0 <= forkHeight < |path| - 1
      requires attachRev[|attachRev| - 1].parent == BlockHash(path[forkHeight])
      modifies `clock, `tip, `path, `workByHash, `parentByHash, `sideBlocks
      modifies `orphanByHash, `orphanByPrev, `orphanParent, `orphanOrder, store
      ensures Valid() && old(clock) <= clock
      ensures var fork, blocks := old(path)[..forkHeight + 1], AttachBlocks(attachRev);
        && (err.None? ==> fork + blocks <= path)
        && (err.Some? ==> if strayed == 0 then path == old(path) else Stranded(fork, blocks, connected, strayed, path))
        && (err.Some? && strayed == 0 ==> !ValidPath(params, fork + blocks, old(clock)))
        && (err.Some? && strayed > 0 ==> Strays(params, old(orphanByHash), old(orphanByPrev), fork + blocks, |fork|, clock))
        && (Strays(params, old(orphanByHash), old(orphanByPrev), fork + blocks, |fork|, old(clock)) ==> err.Some? && strayed > 0)
      ensures orphanByHash.Keys <= old(orphanByHash).Keys && sideBlocks == Unlisted(old(sideBlocks), old(orphanByHash), orphanByHash)
      ensures err.Some? && strayed == 0 ==> sideBlocks == old(sideBlocks) && orphanByHash == old(orphanByHash)
      ensures err.None? ==> tipHash !in orphanByPrev
    {
      hide *;
      PathValid();
      ghost var before, when, fork := path, clock, path[..forkHeight + 1];
      ForkEnd(path, forkHeight);
      var removed := DisconnectTo(forkHeight);
      ReverseLength(removed);
      var count;
      err, count, strayed := AttachBranch(attachRev, sides, tipHash);
      connected := count;
      ghost var pool, lists, failed := old(orphanByHash), old(orphanByPrev), clock;
      if err.Some? {
        RestoreOldBranch(count, removed, fork, AttachBlocks(attachRev), strayed, before, when);
        StraysLater(params, pool, lists, fork + AttachBlocks(attachRev), |fork|, failed, clock);
      }
    }

    /** What every reachable state of the object satisfies: the stored maps are what replaying the
      active chain gives, the money in them is bounded by what was issued, and every memoised or
      recorded work is the sum along the parent path. */
    lemma StateFacts()
      requires Valid()
      ensures tip == TipIndex(path) && store.disk.tip == tip && store.disk.utxo == Replay(path)
      ensures store.disk.heightIndex == HeightMap(path)
      ensures ValidPath(params, path, clock) && TxsValid(params.txRules, path)
      ensures forall i :: 0 <= i < |path| ==>
        0 < CompactToBig(path[i].header.bits) <= POW_LIMIT && params.powValue(HeaderHash(path[i].header)) <= CompactToBig(path[i].header.bits)
      ensures Total(store.disk.utxo) <= SubsidySum(|path|) <= MAX_MONEY as int
      ensures forall h :: h in workByHash ==> workByHash[h] == WorkOf(RootOf(path), h)
      ensures forall h :: h in sideBlocks ==> sideBlocks[h].chainWork == WorkOf(RootOf(path), h)
      ensures forall h :: h in store.disk.hashIndex ==>
        h.HeaderHash? && store.disk.hashIndex[h].chainWork == WorkOf(RootOf(path), h)
    {
      PathValid();
      ValidPathFacts(params, path, clock);
      forall i | 0 <= i < |path|
        ensures 0 < CompactToBig(path[i].header.bits) <= POW_LIMIT && params.powValue(HeaderHash(path[i].header)) <= CompactToBig(path[i].header.bits)
      {
        TargetMet(params, path[i].header);
        hide CheckProofOfWork;
      }
      SupplyCap(params.txRules, path);
      CoreUtxo(params, world, store.disk, path, tip, clock);
      CoreTip(params, world, store.disk, path, tip, clock);
      MemoFacts(RootOf(path), workByHash, parentByHash);
      SideFacts(world, RootOf(path), sideBlocks);
      forall h | h in store.disk.hashIndex
        ensures h.HeaderHash? && store.disk.hashIndex[h].chainWork == WorkOf(RootOf(path), h)
      {
        IndexedFacts(params, world, store.disk, path, tip, clock, h);
        hide Core, MemoOk, SidesOk, OrphansOk, WorkOf;
      }
      hide *;
      CoreHeights();
    }

    lemma CoreHeights()
      requires Valid()
      ensures store.disk.heightIndex == HeightMap(path)
    {
    }

    lemma PathValid()
      requires Valid()
      ensures ValidPath(params, path, clock)
    {
    }

    /** The branch of `h` is heavier than the active chain and leads back to it. */
    ghost predicate Candidate(h: Hash)
      reads `sideBlocks, `path
    {
      Heaviest(sideBlocks, path, h)
    }

    /** Is the side block heavier than the tip? */
    method HeavierThanTip(h: Hash) returns (heavier: bool)
      requires Valid() && h in sideBlocks
      modifies `workByHash, `parentByHash
      ensures Valid()
      ensures heavier <==> |path| > 0 && WorkOf(RootOf(path), h) > WorkOf(RootOf(path), TipOf(path))
    {
      hide *;
      TipFacts(h);
      if tip.None? {
        return false;
      }
      CoreIsBase();
      var activeWork := ChainworkForHash(tip.value.hash);
      heavier := sideBlocks[h].chainWork > activeWork.value;
      Assemble();
    }

    /** Activates a side branch when it is heavier.  On success the whole branch is active (orphans
      may extend it further); on failure either the old chain is back, and then some branch block is
      invalid, or the switch went astray.  It goes astray exactly when a waiting orphan fits the
      branch somewhere below its tip: it did if one fits by the clock at the end, and it must if
      one fits by the clock at the start.  So without such an orphan the switch is all or nothing. */
    method TryActivateSideChain(sideTipHash: Hash) returns (err: Option<BlockError>)
      requires Valid()
      modifies `clock, `tip, `path, `workByHash, `parentByHash, `sideBlocks
      modifies `orphanByHash, `orphanByPrev, `orphanParent, `orphanOrder, store
      ensures Valid() && old(clock) <= clock
      ensures !old(Candidate(sideTipHash)) ==> err == None && path == old(path)
      ensures old(Candidate(sideTipHash)) ==>
        var target := BranchPath(old(sideBlocks), old(path), sideTipHash).value;
        && (err.None? ==> target <= path)
        && (err.Some? && path == old(path) ==> !ValidPath(params, target, old(clock)))
        && (err.Some? && path != old(path) ==> GoesAstray(params, old(orphanByHash), old(orphanByPrev), old(path), target, clock))
        && (GoesAstray(params, old(orphanByHash), old(orphanByPrev), old(path), target, old(clock)) ==> err.Some? && path != old(path))
        && (clock == old(clock) ==>
              && (err.Some? && path != old(path) <==>
                    GoesAstray(params, old(orphanByHash), old(orphanByPrev), old(path), target, clock))
              && (err.None? <==>
                    && ValidPath(params, target, clock)
                    && !GoesAstray(params, old(orphanByHash), old(orphanByPrev), old(path), target, clock)))
        && (err.None? ==> sideTipHash !in orphanByPrev && sideTipHash !in sideBlocks)
      ensures path == old(path) ==> sideBlocks == old(sideBlocks) && orphanByHash == old(orphanByHash)
      ensures ListKept(old(sideBlocks), sideBlocks, old(orphanByHash), orphanByHash, path)
    {
      hide *;
      err := None;
      AllKept(sideBlocks, orphanByHash, path);
      CandidateIs(sideTipHash);
      CandidateParts(sideTipHash);
      if sideTipHash !in sideBlocks {
        return;
      }
      var heavier := HeavierThanTip(sideTipHash);
      if !heavier {
        return;
      }
      HeavierIsOff(sideTipHash);
      var branch := BuildBranch(sideTipHash);
      if branch.None? {
        return;
      }
      var (attachRev, forkHash, forkHeight) := branch.value;
      ghost var connected, strayed;
      err, connected, strayed := ActivateNodes(attachRev, forkHash, forkHeight, sideTipHash);
      PathValid();
      PrefixValid(params, path, clock);
    }

    lemma CandidateParts(h: Hash)
      ensures Candidate(h) <==>
        && h in sideBlocks && |path| > 0
        && WorkOf(RootOf(path), h) > WorkOf(RootOf(path), TipOf(path))
        && BranchPath(sideBlocks, path, h).Some?
    {
      hide BranchPath, WorkOf, RootOf, TipOf;
    }

    /** A hash with more work than the tip is not on the active chain. */
    lemma HeavierIsOff(h: Hash)
      requires Valid() && |path| > 0 && WorkOf(RootOf(path), h) > WorkOf(RootOf(path), TipOf(path))
      ensures !IsActive(path, h)
    {
      hide *;
      PathValid();
      ActiveIs(path, h);
      if IsActive(path, h) {
        var i := Position(path, h);
        TipEnd(path);
        WorkGrows(params, path, i, |path| - 1, clock);
      }
    }

    /** The switch itself, with the exact state that a failure leaves. */
    method ActivateNodes(attachRev: seq<SideNode>, forkHash: Hash, forkHeight: int, ghost sideTipHash: Hash)
      returns (err: Option<BlockError>, ghost connected: nat, ghost strayed: nat)
      requires Valid() && NodesOk(world, sideBlocks, sideTipHash, attachRev)
      requires 0 <= forkHeight < |path| && forkHash == BlockHash(path[forkHeight])
      requires |attachRev| > 0 && attachRev[|attachRev| - 1].parent == forkHash
      requires !IsActive(path, attachRev[|attachRev| - 1].hash)
      modifies `clock, `tip, `path, `workByHash, `parentByHash, `sideBlocks
      modifies `orphanByHash, `orphanByPrev, `orphanParent, `orphanOrder, store
      ensures Valid() && old(clock) <= clock
      ensures var fork, blocks := old(path)[..forkHeight + 1], AttachBlocks(attachRev);
        var target := fork + blocks;
        && (err.None? ==> target <= path)
        && (err.Some? ==> if strayed == 0 then path == old(path) else path != old(path) && Stranded(fork, blocks, connected, strayed, path))
        && (err.Some? && path == old(path) ==> !ValidPath(params, target, old(clock)))
        && (err.Some? && path != old(path) ==> GoesAstray(params, old(orphanByHash), old(orphanByPrev), old(path), target, clock))
        && (GoesAstray(params, old(orphanByHash), old(orphanByPrev), old(path), target, old(clock)) ==> err.Some? && path != old(path))
      ensures err.Some? ==> sideBlocks == Unlisted(old(sideBlocks), old(orphanByHash), orphanByHash)
      ensures err.Some? && path == old(path) ==> sideBlocks == old(sideBlocks) && orphanByHash == old(orphanByHash)
      ensures err.None? ==>
        && path != old(path) && sideTipHash !in orphanByPrev && sideTipHash !in sideBlocks
        && sideBlocks == KeptFrom(Unlisted(old(sideBlocks), old(orphanByHash), orphanByHash) - NodeHashes(attachRev, |attachRev|),
                                  |path| - 1 - MAX_SIDE_CHAIN_DEPTH)
      ensures ListKept(old(sideBlocks), sideBlocks, old(orphanByHash), orphanByHash, path)
    {
      hide *;
      ghost var sides, before, fork, blocks := sideBlocks, path, path[..forkHeight + 1], AttachBlocks(attachRev);
      ghost var pool, lists, start := orphanByHash, orphanByPrev, clock;
      TipIsFork(forkHeight);
      OffBranch(world, sides, sideTipHash, attachRev, path, forkHeight);
      AstrayIs(params, pool, lists, before, forkHeight + 1, fork + blocks, start);
      if tip.value.hash == forkHash {
        err, connected, strayed := ExtendByBranch(attachRev, sides, sideTipHash);
      } else {
        err, connected, strayed := SwitchToBranch(attachRev, forkHeight, sides, sideTipHash);
      }
      AstrayIs(params, pool, lists, before, forkHeight + 1, fork + blocks, clock);
      if err.Some? {
        StrandedEnds(fork, blocks, connected, strayed, path);
        StrandedOff(before, fork, blocks, connected, strayed, path);
        UnlistedKept(sides, pool, orphanByHash, path);
      } else {
        DropNodes(attachRev);
        TipFacts(ZeroHash);
        PruneSideBlocks();
        FirstNode(world, sides, sideTipHash, attachRev);
        NodesActive(world, sides, sideTipHash, attachRev, fork, path);
        PrunedKept(sides, pool, orphanByHash, attachRev, path, sideBlocks);
        LongerThan(before, fork, blocks, path);
      }
    }

    // ----- Processing a block -----

    /** Lists a block as a side node under a parent that is stored or listed. */
    method ListSideBlock(block: Block, parentHeight: int)
      requires Valid() && block in world && BlockHash(block) !in store.disk.hashIndex && KnownParent(block, parentHeight)
      modifies `sideBlocks, `workByHash, `parentByHash
      ensures Valid() && BlockHash(block) in sideBlocks
      ensures sideBlocks == Listing(old(sideBlocks), RootOf(path), block, parentHeight)
    {
      hide *;
      NodeIsOk(block, parentHeight);
      var hash, parent := BlockHash(block), block.header.prev;
      var parentWork := KnownParentWork(parent);
      var node := SideNode(hash, parent, parentHeight + 1, block, parentWork + WorkForBits(block.header.bits));
      NodeForIs(RootOf(path), block, parentHeight);
      TipFacts(hash);
      SidesPut(world, RootOf(path), sideBlocks, hash, node);
      ListingIs(sideBlocks, RootOf(path), block, parentHeight);
      sideBlocks := sideBlocks[hash := node];
      Assemble();
    }

    method KnownParentWork(parent: Hash) returns (work: nat)
      requires Valid() && parent != ZeroHash && (parent in store.disk.hashIndex || parent in sideBlocks)
      modifies `workByHash, `parentByHash
      ensures Valid() && work == WorkOf(RootOf(path), parent)
    {
      hide *;
      TipFacts(parent);
      CoreIsBase();
      var r := ChainworkForHash(parent);
      Assemble();
      work := r.value;
    }

    /** The parent of `block` is stored or listed, at the given height of the tree. */
    ghost predicate KnownParent(block: Block, parentHeight: int)
      reads `path, `sideBlocks, store
    {
      var parent := block.header.prev;
      && |path| > 0 && parent != ZeroHash
      && (parent in store.disk.hashIndex || parent in sideBlocks)
      && Rooted(RootOf(path), parent) && parentHeight == HeightOf(RootOf(path), parent)
    }

    lemma NodeIsOk(block: Block, parentHeight: int)
      requires Valid() && block in world && BlockHash(block) !in store.disk.hashIndex && KnownParent(block, parentHeight)
      ensures parentHeight >= -1
      ensures var g, parent := RootOf(path), block.header.prev;
        && |path| > 0 && parent != ZeroHash && (parent in store.disk.hashIndex || parent in sideBlocks)
        && SideOk(world, g, BlockHash(block), NodeFor(g, block, parentHeight))
    {
      RootStored(params, world, store.disk, path, tip, clock);
      NewNodeOk(world, RootOf(path), block, parentHeight);
      hide *;
    }

    /** A branch block: list it, then try to make its branch active.  Unless the active chain changed,
      the list is what it was and the new node, at its height and with its work.  The answer is
      `Connected` exactly when the block is the tip. */
    method ProcessSideBlock(block: Block, parentHeight: int) returns (status: BlockStatus, err: Option<BlockError>)
      requires Valid() && block in world && BlockHash(block) !in store.disk.hashIndex && KnownParent(block, parentHeight)
      modifies this, store
      ensures Valid() && old(clock) <= clock
      ensures (status == Rejected <==> err.Some?) && (err.None? ==> status in {SideChain, Connected})
      ensures err.None? ==> (status == Connected <==> TipOf(path) == BlockHash(block))
      ensures path == old(path) ==>
        sideBlocks == WithNode(old(sideBlocks), RootOf(path), block) && orphanByHash == old(orphanByHash)
      ensures ListKept(WithNode(old(sideBlocks), RootOf(old(path)), block), sideBlocks, old(orphanByHash), orphanByHash, path)
      ensures var branch := BranchTo(old(sideBlocks), old(path), block);
        if !old(Outweighs(BlockHash(block))) || branch.None? then status == SideChain && path == old(path)
        else
          && (err.None? ==> branch.value <= path && Heavier(old(path), path) && (status == Connected <==> path == branch.value))
          && (err.Some? && path == old(path) ==> !ValidPath(params, branch.value, old(clock)))
          && (err.Some? && path != old(path) ==> GoesAstray(params, old(orphanByHash), old(orphanByPrev), old(path), branch.value, clock))
          && (GoesAstray(params, old(orphanByHash), old(orphanByPrev), old(path), branch.value, old(clock)) ==> err.Some? && path != old(path))
    {
      hide *;
      ghost var sides, before := sideBlocks, path;
      NodeIsOk(block, parentHeight);
      var hash := BlockHash(block);
      var oldTip := tip;
      OutweighsIs(hash);
      TipFacts(hash);
      NotTip(hash);
      ListSideBlock(block, parentHeight);
      ListingIsNode(sides, world, RootOf(path), block, parentHeight);
      ListedBranch(sides, RootOf(path), path, block, parentHeight);
      CandidateIs(hash);
      CandidateParts(hash);
      if Candidate(hash) {
        TargetFacts(hash);
      }
      err := TryActivateSideChain(hash);
      if err.Some? {
        return Rejected, err;
      }
      PathValid();
      TipFacts(hash);
      ContainsHeavier(params, before, path, clock);
      ghost var reached := path;
      status := FollowActivated(hash, oldTip);
      PathValid();
      ghost var branch := BranchTo(sides, before, block);
      if branch.Some? {
        BranchTip(sides, before, block);
        TipReached(params, branch.value, path, clock);
      }
    }

    /** More work leads up to `h` than to the tip. */
    ghost predicate Outweighs(h: Hash)
      reads `path
    {
      |path| > 0 && WorkOf(RootOf(path), h) > WorkOf(RootOf(path), TipOf(path))
    }

    lemma OutweighsIs(h: Hash)
      ensures Outweighs(h) <==> |path| > 0 && WorkOf(RootOf(path), h) > WorkOf(RootOf(path), TipOf(path))
    {
      hide WorkOf, RootOf, TipOf;
    }

    lemma CandidateIs(h: Hash)
      ensures Candidate(h) <==> Heaviest(sideBlocks, path, h)
      ensures Heaviest(sideBlocks, path, h) ==> BranchPath(sideBlocks, path, h).Some? && |path| > 0
    {
      hide BranchPath, WorkOf;
    }

    /** The answer to a branch block that was accepted.  When it became the tip its waiting
      descendants are looked at once more; the switch has already done that. */
    method FollowActivated(hash: Hash, oldTip: Option<BlockIndex>) returns (status: BlockStatus)
      requires Valid()
      modifies this, store
      ensures Valid() && old(clock) <= clock && status in {SideChain, Connected}
      ensures status == Connected <==> old(tip) != oldTip && old(tip).Some? && old(tip).value.hash == hash
      ensures status == SideChain || hash !in old(orphanByPrev) ==>
        path == old(path) && sideBlocks == old(sideBlocks) && orphanByHash == old(orphanByHash)
    {
      hide *;
      status := SideChain;
      if tip != oldTip && tip.Some? && tip.value.hash == hash {
        WaitingIs(orphanByPrev, hash);
        ghost var base := path;
        AcceptOrphanChildren(hash);
        NoneFirst(base, path);
        status := Connected;
      }
    }

    lemma NotTip(hash: Hash)
      requires Valid() && hash !in store.disk.hashIndex
      ensures TipOf(path) != hash || |path| == 0
      ensures tip == TipIndex(path)
    {
      TipFacts(hash);
      CoreTip(params, world, store.disk, path, tip, clock);
      hide Core, MemoOk, SidesOk, OrphansOk;
    }

    /** Processes a block handed to the node.  The object stays valid whatever happens.  The tip
      never gets lighter (either the active chain is the same, or its tip has strictly more work)
      but when a switch went astray, and that is refused as stated for TryActivateSideChain.  Side
      blocks leave the list only as ListKept says, and a block that was accepted is found again: it
      is stored or listed.  After a connection on the tip the chain is at rest. */
    method ProcessBlock(block: Block) returns (status: BlockStatus, err: Option<BlockError>)
      requires Valid() && block in world
      modifies this, store
      ensures Valid() && old(clock) <= clock
      ensures var branch := BranchTo(old(sideBlocks), old(path), block);
        || path == old(path) || |old(path)| == 0 || Heavier(old(path), path)
        || (status == Rejected && branch.Some? && old(Outweighs(BlockHash(block)))
            && GoesAstray(params, old(orphanByHash), old(orphanByPrev), old(path), branch.value, clock))
      ensures var hash, parent := BlockHash(block), block.header.prev;
        var branch := BranchTo(old(sideBlocks), old(path), block);
        var known := old(IsStored(hash)) || hash in old(orphanByHash);
        var onTip := |old(path)| == 0 || parent == TipOf(old(path));
        var attached := old(IsStored(parent)) || parent in old(sideBlocks);
        && (status == Duplicate <==> known)
        && (!known && onTip ==>
              && (status == Connected <==> BlockOk(params, old(path), block, clock))
              && (if status == Connected then old(path) + [block] <= path
                  else status == Rejected && path == old(path) && sideBlocks == old(sideBlocks))
              && LeftForChain(old(orphanByHash), orphanByHash, path)
              && (status == Connected ==>
                    NoneEligible(params, orphanByHash, path, old(clock), WaitingFor(old(orphanByPrev), TipOf(path))))
              && ListKept(old(sideBlocks), sideBlocks, old(orphanByHash), orphanByHash, path))
        && (status == Orphan <==> !known && !onTip && !attached)
        && (status == Duplicate || status == Orphan ==> path == old(path) && sideBlocks == old(sideBlocks))
        && (status == Duplicate ==> orphanByHash == old(orphanByHash))
        && (status == Orphan ==>
              && orphanByHash == (if |old(orphanOrder)| >= 128 then old(orphanByHash) - {old(orphanOrder)[0]}
                                  else old(orphanByHash))[hash := block]
              && hash in WaitingFor(orphanByPrev, parent))
        && (status == SideChain || status == Connected ==> IsStored(hash) || hash in sideBlocks)
        && (!known && !onTip && attached ==>
              && (path == old(path) ==>
                    sideBlocks == WithNode(old(sideBlocks), RootOf(path), block) && orphanByHash == old(orphanByHash))
              && ListKept(WithNode(old(sideBlocks), RootOf(old(path)), block), sideBlocks, old(orphanByHash), orphanByHash, path)
              && (status != Rejected ==> status == if TipOf(path) == hash then Connected else SideChain)
              && if !old(Outweighs(hash)) || branch.None? then status == SideChain && path == old(path)
                 else
                   && (status != Rejected ==> branch.value <= path && (status == Connected <==> path == branch.value))
                   && (status == Rejected && path == old(path) ==> !ValidPath(params, branch.value, old(clock)))
                   && (GoesAstray(params, old(orphanByHash), old(orphanByPrev), old(path), branch.value, old(clock)) ==>
                         status == Rejected && path != old(path)))
    {
      hide *;
      err := None;
      var hash, parent := BlockHash(block), block.header.prev;
      var stored := store.LoadBlock(hash);
      StoredMeans(hash);
      if stored.Some? || hash in orphanByHash {
        return Duplicate, None;
      }
      NotIndexed(hash);
      TipFacts(hash);
      if tip.Some? && parent != tip.value.hash {
        StoredMeans(parent);
        var parentHeight := FindParent(block);
        StoredMeans(parent);
        if parentHeight.Some? {
          ghost var sides, before := sideBlocks, path;
          status, err := ProcessSideBlock(block, parentHeight.value);
          if BranchTo(sides, before, block).Some? {
            BranchTip(sides, before, block);
          }
          NodeListed(sides, RootOf(before), block);
          FoundAgain(hash, if BranchTo(sides, before, block).Some? then BranchTo(sides, before, block).value else []);
          return;
        }
        AddWaiting(hash, parent, block);
        return Orphan, None;
      }
      ghost var longer := path + [block];
      RootAppend(path, block);
      status, err := ProcessNext(block);
      FoundAgain(hash, longer);
    }

    /** The last block of an active stretch is stored. */
    lemma FoundAgain(h: Hash, target: seq<Block>)
      requires Valid()
      ensures |target| > 0 && TipOf(target) == h && target <= path ==> IsStored(h)
    {
      hide *;
      TipEnd(target);
      if |target| > 0 && target <= path {
        assert path[|target| - 1] == target[|target| - 1];
        StoredIs(h);
      }
    }

    /** What follows a block that was accepted is not an orphan. */
    method ProcessInTurn(block: Block, child: Block) returns (first: BlockStatus, second: BlockStatus)
      requires Valid() && block in world && child in world && child.header.prev == BlockHash(block)
      modifies this, store
      ensures Valid()
      ensures first == SideChain || first == Connected ==> second != Orphan
    {
      hide *;
      var err;
      first, err := ProcessBlock(block);
      second, err := ProcessBlock(child);
    }

    lemma StoredMeans(h: Hash)
      ensures IsStored(h) <==> h in store.disk.hashIndex && h in store.disk.blocks
    {
    }

    /** A block on the tip: connect it, then its waiting descendants. */
    method ProcessNext(block: Block) returns (status: BlockStatus, err: Option<BlockError>)
      requires Valid() && block in world
      modifies this, store
      ensures Valid() && old(clock) <= clock && status != Duplicate && status != Orphan
      ensures path == old(path) || |old(path)| == 0 || Heavier(old(path), path)
      ensures err.None? <==> BlockOk(params, old(path), block, clock)
      ensures if err.None? then status == Connected && old(path) + [block] <= path else status == Rejected && path == old(path)
      ensures err.Some? ==> sideBlocks == old(sideBlocks) && orphanByHash == old(orphanByHash)
      ensures LeftForChain(old(orphanByHash), orphanByHash, path)
      ensures err.None? ==>
        NoneEligible(params, orphanByHash, path, old(clock), WaitingFor(old(orphanByPrev), TipOf(path)))
      ensures ListKept(old(sideBlocks), sideBlocks, old(orphanByHash), orphanByHash, path)
    {
      ghost var before, sides, pool, lists, start := path, sideBlocks, orphanByHash, orphanByPrev, clock;
      hide *;
      AllKept(sides, pool, path);
      LeftSelf(pool, path);
      var r := ConnectBlock(block);
      if r.Err? {
        return Rejected, Some(r.error);
      }
      AllKept(sides, pool, path);
      ghost var when := clock;
      RootAppend(before, block);
      AcceptOrphanChildren(BlockHash(block));
      NoneEarlier(params, orphanByHash, path, start, when, WaitingFor(lists, TipOf(path)));
      BlockOkLater(params, before, block, when, clock);
      TipFacts(ZeroHash);
      PruneSideBlocks();
      JustPruned(sides, pool, orphanByHash, path, sideBlocks);
      PathValid();
      if |before| > 0 {
        GrownHeavier(params, before, path, clock);
      }
      return Connected, None;
    }

    /** Both files of a block are there. */
    predicate IsStored(h: Hash)
      reads store
    {
      h in store.disk.hashIndex && h in store.disk.blocks
    }

    lemma StoredIs(h: Hash)
      requires Valid() && |path| > 0
      ensures IsStored(h) <==> h in store.disk.hashIndex && h in store.disk.blocks
      ensures forall i :: 0 <= i < |path| && BlockHash(path[i]) == h ==> IsStored(h)
    {
      IndexedHere(h);
      hide Core, MemoOk, SidesOk, OrphansOk;
    }

    /** The parent's height when it is active, stored or listed; None for an orphan. */
    method FindParent(block: Block) returns (r: Option<int>)
      requires Valid() && |path| > 0
      modifies store
      ensures Valid() && store.disk == old(store.disk)
      ensures r.Some? ==> KnownParent(block, r.value)
      ensures r.Some? <==> IsStored(block.header.prev) || block.header.prev in sideBlocks
    {
      hide Core, MemoOk, SidesOk, OrphansOk, Rooted, HeightOf, RootOf, TipIndex;
      ParentFacts(block);
      StoredIs(block.header.prev);
      var parent := block.header.prev;
      var active := ActiveHeight(parent);
      if active.Some? {
        return active;
      }
      var stored := store.LoadBlock(parent);
      if stored.Some? {
        return Some(stored.value.1.height);
      }
      if parent in sideBlocks {
        return Some(sideBlocks[parent].height);
      }
      return None;
    }

    method AddWaiting(hash: Hash, parent: Hash, block: Block)
      requires Valid() && BlockHash(block) == hash && block in world
      modifies `orphanByHash, `orphanByPrev, `orphanParent, `orphanOrder
      ensures Valid()
      ensures hash !in old(orphanByHash) ==>
        && orphanByHash == (if |old(orphanOrder)| >= 128 then old(orphanByHash) - {old(orphanOrder)[0]}
                            else old(orphanByHash))[hash := block]
        && hash in WaitingFor(orphanByPrev, parent)
    {
      hide Core, MemoOk, SidesOk, OrphansOk, RootOf, Unfiled;
      AddOrphan(hash, parent, block);
    }

    lemma NotIndexed(hash: Hash)
      requires Valid() && !(hash in store.disk.hashIndex && hash in store.disk.blocks)
      ensures hash !in store.disk.hashIndex
    {
      IndexedFacts(params, world, store.disk, path, tip, clock, hash);
      hide *;
    }

    /** Wherever the parent is found, it is known at the height found there. */
    lemma ParentFacts(block: Block)
      requires Valid() && |path| > 0
      ensures var parent := block.header.prev;
        && (forall i :: 0 <= i < |path| && BlockHash(path[i]) == parent ==> KnownParent(block, i))
        && (parent in store.disk.hashIndex ==> KnownParent(block, store.disk.hashIndex[parent].height))
        && (parent in sideBlocks ==> KnownParent(block, sideBlocks[parent].height))
    {
      var parent := block.header.prev;
      IndexedFacts(params, world, store.disk, path, tip, clock, parent);
      ActiveIsIndexed(params, world, store.disk, path, tip, clock, parent);
      assert parent in sideBlocks ==> SideOk(world, RootOf(path), parent, sideBlocks[parent]);
      hide Core, MemoOk, OrphansOk, WorkOf, Rooted, HeightOf, RootOf;
    }

    lemma TargetFacts(h: Hash)
      requires Valid() && Candidate(h)
      ensures Heavier(path, BranchPath(sideBlocks, path, h).value)
    {
      assert forall x :: x in sideBlocks ==> SideOk(world, RootOf(path), x, sideBlocks[x]);
      TargetShape(sideBlocks, path, h);
      hide Core, MemoOk, OrphansOk, WorkOf;
    }

    lemma TipIsFork(fork: int)
      requires Valid() && 0 <= fork < |path|
      ensures tip.Some? && tip.value.hash == TipOf(path)
      ensures tip.value.hash == BlockHash(path[fork]) <==> fork == |path| - 1
      ensures fork == |path| - 1 ==> path[..fork + 1] == path
    {
      CoreTip(params, world, store.disk, path, tip, clock);
      PathLinked();
      hide Core, MemoOk, SidesOk, OrphansOk, Linked;
      if fork < |path| - 1 {
        PathHashesDiffer(path, fork, |path| - 1);
      }
    }

    lemma TipFacts(h: Hash)
      requires Valid()
      ensures CoreValid() && MemoOk(RootOf(path), workByHash, parentByHash) && SidesOk(world, RootOf(path), sideBlocks)
      ensures OrphansOk(world, orphanByHash, orphanParent, orphanOrder)
      ensures tip.None? <==> |path| == 0
      ensures |path| > 0 ==> tip.value.hash == TipOf(path) && TipOf(path) in store.disk.hashIndex && tip.value.height == |path| - 1
      ensures h in sideBlocks ==> sideBlocks[h].chainWork == WorkOf(RootOf(path), h)
    {
      CoreTip(params, world, store.disk, path, tip, clock);
      TipStored(params, world, store.disk, path, tip, clock);
      assert h in sideBlocks ==> SideOk(world, RootOf(path), h, sideBlocks[h]);
      hide Core, MemoOk, OrphansOk, WorkOf, HeightOf, Rooted, RootOf;
    }

    lemma Assemble()
      requires CoreValid() && MemoOk(RootOf(path), workByHash, parentByHash) && SidesOk(world, RootOf(path), sideBlocks)
      requires OrphansOk(world, orphanByHash, orphanParent, orphanOrder)
      ensures Valid()
    {
    }

    lemma PathLinked()
      requires CoreValid()
      ensures Linked(path)
    {
    }

    lemma PathHeight(i: int)
      requires CoreValid() && 0 <= i < |path|
      ensures IndexOf(RootOf(path), BlockHash(path[i])).height == i
      ensures i > 0 ==> path[i].header.prev == BlockHash(path[i - 1])
    {
      OnPath(path, i);
    }
  }

  /** The record of a stored block, and that its parent is stored as well. */
  lemma IndexedFacts(params: Params, world: iset<Block>, d: Disk, path: seq<Block>, tip: Option<BlockIndex>, clock: Clock, h: Hash)
    requires Core(params, world, d, path, tip, clock)
    ensures h in d.hashIndex ==> var g := RootOf(path);
      && g.HeaderHash? && h.HeaderHash? && Rooted(g, h) && h in d.blocks && d.hashIndex[h] == IndexOf(g, h)
      && IndexOf(g, h).parent == ParentOf(g, h) && IndexOf(g, h).bits == h.header.bits
      && (ParentOf(g, h) == ZeroHash || ParentOf(g, h) in d.hashIndex)
      && WorkOf(g, h) == WorkForBits(h.header.bits) + WorkOf(g, ParentOf(g, h))
      && Depth(ParentOf(g, h)) < Depth(h)
  {
    hide StoreOk, WorldOk, ValidPath, InWorld, TipIndex;
    if h in d.hashIndex {
      assert EntryClosed(d, RootOf(path), h);
    }
  }

  lemma MinIs(a: int, b: int)
    ensures Min(a, b) == if a < b then a else b
  {
  }

  lemma RecentIs(hs: seq<Header>, limit: nat, recent: seq<BlockWindowEntry>)
    requires |recent| == Min(|hs|, limit) && forall i :: 0 <= i < |recent| ==> recent[i] == EntryAt(hs, |hs| - 1 - i)
    ensures recent == Recent(hs, limit)
  {
    hide EntryAt;
  }

  lemma TargetMet(params: Params, h: Header)
    ensures CheckProofOfWork(params.powValue(HeaderHash(h)), h.bits) <==>
      0 < CompactToBig(h.bits) <= POW_LIMIT && params.powValue(HeaderHash(h)) <= CompactToBig(h.bits)
  {
    hide CompactToBig;
  }

  lemma OkMeetsTarget(params: Params, hs: seq<Header>, h: Header, now: Clock)
    requires HeaderOk(params, hs, h, now)
    ensures 0 < CompactToBig(h.bits) <= POW_LIMIT && params.powValue(HeaderHash(h)) <= CompactToBig(h.bits)
  {
    HeaderMeans(params, hs, h, now);
    hide RequiredBits, CompactToBig, Below, Recent;
  }

  lemma NoHashes()
    ensures HashesOf([]) == []
  {
  }

  lemma ContextIs(snap: Snapshot, path: seq<Block>)
    requires TakenOf(snap, HeadersOf(path))
    ensures |path| > 0 && snap.tipHash == TipOf(path) && snap.tipHeight == |path| - 1
  {
    HeadersTip(path);
    hide Recent;
  }

  lemma HeadersTip(path: seq<Block>)
    ensures |HeadersOf(path)| == |path|
    ensures |path| > 0 ==> HeaderHash(HeadersOf(path)[|path| - 1]) == BlockHash(path[|path| - 1])
  {
  }

  lemma TipStored(params: Params, world: iset<Block>, d: Disk, path: seq<Block>, tip: Option<BlockIndex>, clock: Clock)
    requires Core(params, world, d, path, tip, clock)
    ensures |path| > 0 ==> BlockHash(path[|path| - 1]) in d.hashIndex
  {
    if |path| > 0 {
      assert FilesFor(d, path, |path| - 1);
    }
  }

  /** What the fields of the next index record are. */
  lemma NewRecord(path: seq<Block>, b: Block)
    requires Linked(path + [b])
    ensures var g, h := RootOf(path + [b]), BlockHash(b);
      && (|path| > 0 ==> g == RootOf(path))
      && var parent := if |path| == 0 then ZeroHash else BlockHash(path[|path| - 1]);
      IndexOf(g, h) == BlockIndex(|path|, h, b.header.time, b.header.bits, b.header.nonce, parent,
                                  WorkForBits(b.header.bits) + WorkOf(RootOf(path), parent))
  {
    var whole, n := path + [b], |path|;
    OnPath(whole, n);
    RootAppend(path, b);
    if n > 0 {
      assert whole[n - 1] == path[n - 1];
      PathHashesDiffer(whole, 0, n);
      assert whole[0] == path[0];
    }
  }

  lemma HeaderLinks(params: Params, world: iset<Block>, d: Disk, path: seq<Block>, tip: Option<BlockIndex>, clock: Clock, b: Block)
    requires Core(params, world, d, path, tip, clock) && HeaderOk(params, HeadersOf(path), b.header, clock)
    ensures Linked(path + [b])
  {
    HeadersTip(path);
    hide FilesFor, IndexClosed, WorldOk, ValidPath, RequiredBits, MedianTime, CheckProofOfWork, HeightMap;
    var whole := path + [b];
    forall i | 0 < i < |whole|
      ensures whole[i].header.prev == BlockHash(whole[i - 1])
    {
      assert i < |path| ==> whole[i] == path[i];
    }
  }

  lemma CoreUtxo(params: Params, world: iset<Block>, d: Disk, path: seq<Block>, tip: Option<BlockIndex>, clock: Clock)
    requires Core(params, world, d, path, tip, clock)
    ensures d.utxo == Replay(path) && InRange(d.utxo) && Sane(d.utxo)
  {
    ValidPathFacts(params, path, clock);
    SupplyBound(params.txRules, path);
    hide *;
  }

  lemma ValidIsFresh(params: Params, world: iset<Block>, d: Disk, path: seq<Block>, tip: Option<BlockIndex>, clock: Clock, b: Block)
    requires Core(params, world, d, path, tip, clock) && b in world
    ensures BlockOk(params, path, b, clock) ==> ExtendsOk(params, path, b, clock) && Fresh(Replay(path), b.txs)
  {
    hide Core;
    if BlockOk(params, path, b, clock) {
      assert |path| == 0 ==> Replay(path) == map[];
      ExtensionFresh(params, world, d, path, tip, clock, b);
    }
  }

  /** Everything a connect keeps, for the state it leads to. */
  lemma ConnectFacts(
      params: Params, world: iset<Block>, d: Disk, path: seq<Block>, tip: Option<BlockIndex>, clock: Clock, b: Block, diff: Diff,
      work: map<Hash, nat>, parents: map<Hash, Hash>, sides: map<Hash, SideNode>)
    requires Core(params, world, d, path, tip, clock) && b in world
    requires ExtendsOk(params, path, b, clock) && Exact(Replay(path), b.txs, |path|, diff)
    requires MemoOk(RootOf(path), work, parents) && SidesOk(world, RootOf(path), sides)
    ensures var g, h := RootOf(path + [b]), BlockHash(b);
      var idx := IndexOf(g, h);
      && idx.hash == h && idx.chainWork == WorkOf(g, h) && idx.parent == ParentOf(g, h)
      && Core(params, world, Saved(d, b, idx, diff), path + [b], Some(idx), clock)
      && MemoOk(g, work[h := WorkOf(g, h)], parents[h := ParentOf(g, h)])
      && SidesOk(world, g, sides)
  {
    hide Core, MemoOk, SidesOk, ExtendsOk, Exact, RootOf, Replay;
    ExtensionFresh(params, world, d, path, tip, clock, b);
    CoreConnect(params, world, d, path, tip, clock, b, diff);
    MemoConnect(path, b, work, parents);
    SidesConnect(world, path, b, sides);
  }

  lemma DisconnectFacts(
      params: Params, world: iset<Block>, d: Disk, path: seq<Block>, tip: Option<BlockIndex>, clock: Clock,
      work: map<Hash, nat>, parents: map<Hash, Hash>, sides: map<Hash, SideNode>)
    requires Core(params, world, d, path, tip, clock) && |path| > 1
    requires MemoOk(RootOf(path), work, parents) && SidesOk(world, RootOf(path), sides)
    ensures var n, h := |path|, TipOf(path);
      var front := path[..n - 1];
      && h in d.blocks && h in d.hashIndex && d.blocks[h] == path[n - 1] && h in d.undo && tip.Some? && tip.value.hash == h
      && RootOf(front) == RootOf(path)
      && MemoOk(RootOf(front), work - {h}, parents - {h}) && SidesOk(world, RootOf(front), sides)
      && var prev := IndexOf(RootOf(path), BlockHash(path[n - 2]));
      && prev.hash == path[n - 1].header.prev
      && Core(params, world, Disconnected(d, prev, d.undo[h]), front, Some(prev), clock)
  {
    hide MemoOk, SidesOk, StoreOk, ValidPath, WorldOk;
    CoreTip(params, world, d, path, tip, clock);
    CoreHasPath(params, world, d, path, tip, clock);
    StoredFacts(d, path, |path| - 1);
    CoreDisconnect(params, world, d, path, tip, clock);
    MemoDrop(RootOf(path), work, parents, TipOf(path));
    assert TipOf(path[..|path| - 1]) == BlockHash(path[|path| - 2]);
    hide Core, HasPath, HeightOf, WorkOf, Disconnected;
  }

  lemma RecentNonEmpty(hs: seq<Header>)
    requires |hs| > 0
    ensures |Recent(hs, DGW_PAST_BLOCKS)| > 0
  {
  }

  lemma CoreTip(params: Params, world: iset<Block>, d: Disk, path: seq<Block>, tip: Option<BlockIndex>, clock: Clock)
    requires Core(params, world, d, path, tip, clock)
    ensures d.tip == TipIndex(path) && tip == TipIndex(path)
    ensures |path| == 0 ==> tip == None
    ensures |path| > 0 ==> tip.Some? && tip.value.height == |path| - 1 && tip.value.hash == BlockHash(path[|path| - 1])
  {
    TipHeight(path);
  }

  /** A stored hash is active exactly when the height record at its height names it. */
  lemma ActiveIsIndexed(params: Params, world: iset<Block>, d: Disk, path: seq<Block>, tip: Option<BlockIndex>, clock: Clock, hash: Hash)
    requires Core(params, world, d, path, tip, clock)
    ensures forall i :: 0 <= i < |path| && BlockHash(path[i]) == hash ==>
      hash in d.hashIndex && hash in d.blocks && d.hashIndex[hash].height == i
    ensures forall i :: 0 <= i < |path| ==> IndexOf(RootOf(path), BlockHash(path[i])).hash == BlockHash(path[i])
  {
    forall i | 0 <= i < |path| && BlockHash(path[i]) == hash
      ensures hash in d.hashIndex && hash in d.blocks && d.hashIndex[hash].height == i
    {
      assert FilesFor(d, path, i);
      OnPath(path, i);
    }
  }
}
