/** Crashes against the invariant of the running node: what a chain object opened on the store finds,
  wherever in a save or a disconnect, and in any number of recoveries, the writes were cut.
*/
module Restart {
  import opened Wire
  import opened Ledger
  import opened Batch
  import opened ChainPath
  import opened Storage
  import opened Active
  import opened Blockchain

  /** Some stored block names `h` as its parent. */
  ghost predicate HasChild(d: Disk, h: Hash) {
    exists x :: x in d.hashIndex && x.HeaderHash? && x.header.prev == h
  }

  /** The store after k of the writes of saving `b` on `path`, and the given cut recoveries. */
  ghost function AfterSave(d: Disk, path: seq<Block>, b: Block, diff: Diff, k: nat, cuts: seq<nat>): Disk
    requires k <= |SaveSteps(path, b, diff)|
  {
    Recovered(Crashes(ApplyAll(d, SaveSteps(path, b, diff)[..k]), cuts))
  }

  ghost function SaveSteps(path: seq<Block>, b: Block, diff: Diff): seq<Write> {
    SaveWrites(b, IndexOf(RootOf(path + [b]), BlockHash(b)), diff)
  }

  /** Cut a save of a valid block anywhere.  The store then supports the longer chain if the tip was
    written and the old chain if not; and it satisfies the whole invariant of the node exactly
    when nothing had to be rolled back or no stored block is a child of the one rolled back. */
  lemma CrashedSaveCore(params: Params, world: iset<Block>, d: Disk, path: seq<Block>, tip: Option<BlockIndex>, clock: Clock,
                        b: Block, diff: Diff, k: nat, cuts: seq<nat>)
    requires Core(params, world, d, path, tip, clock) && b in world && ExtendsOk(params, path, b, clock)
    requires Exact(Replay(path), b.txs, |path|, diff) && k <= |SaveSteps(path, b, diff)|
    ensures var n, d' := |SaveSteps(path, b, diff)|, AfterSave(d, path, b, diff, k, cuts);
      var after := if k < n - 1 then path else path + [b];
      && Base(params, world, d', after, TipIndex(after), clock)
      && (Core(params, world, d', after, TipIndex(after), clock) <==> k == 0 || n - 1 <= k || !HasChild(d, BlockHash(b)))
  {
    hide *;
    var d' := AfterSave(d, path, b, diff, k, cuts);
    ExtensionFresh(params, world, d, path, tip, clock, b);
    CoreParts(params, world, d, path, tip, clock);
    SaveEnds(d, path, b, diff, k, cuts);
    if k == 0 {
      CoreIs(params, world, d, path, tip, clock);
    } else if |SaveSteps(path, b, diff)| - 1 <= k {
      CoreConnect(params, world, d, path, tip, clock, b, diff);
      TipAppend(path, b);
      CoreIs(params, world, d', path + [b], TipIndex(path + [b]), clock);
    } else {
      RolledBackBase(params, world, d, path, tip, clock, b, diff, d');
      CoreIs(params, world, d', path, tip, clock);
      GapIff(d, path, b, diff, d');
    }
  }

  /** So the whole invariant always survives the first save of a block. */
  lemma CrashedFirstSave(params: Params, world: iset<Block>, d: Disk, path: seq<Block>, tip: Option<BlockIndex>, clock: Clock,
                         b: Block, diff: Diff, k: nat, cuts: seq<nat>)
    requires Core(params, world, d, path, tip, clock) && b in world && ExtendsOk(params, path, b, clock)
    requires Exact(Replay(path), b.txs, |path|, diff) && k <= |SaveSteps(path, b, diff)| && BlockHash(b) !in d.hashIndex
    ensures var after := if k < |SaveSteps(path, b, diff)| - 1 then path else path + [b];
      Core(params, world, AfterSave(d, path, b, diff, k, cuts), after, TipIndex(after), clock)
  {
    CrashedSaveCore(params, world, d, path, tip, clock, b, diff, k, cuts);
    CoreParts(params, world, d, path, tip, clock);
    ExtensionFresh(params, world, d, path, tip, clock, b);
    hide *;
    OwnParents(path, b);
    EmptyRoot(path);
    NewHasNoChild(d, RootOf(path), BlockHash(b));
  }

  lemma EmptyRoot(path: seq<Block>)
    ensures |path| == 0 ==> !RootOf(path).HeaderHash?
  {
  }

  lemma NewHasNoChild(d: Disk, g: Hash, h: Hash)
    requires IndexClosed(d, g) && h !in d.hashIndex && (g in d.hashIndex && g.HeaderHash? ==> g.header.prev != h)
    ensures !HasChild(d, h)
  {
    forall x | x in d.hashIndex && x.HeaderHash?
      ensures x.header.prev != h
    {
      assert EntryClosed(d, g, x);
      hide Rooted, IndexOf;
    }
  }

  lemma CoreParts(params: Params, world: iset<Block>, d: Disk, path: seq<Block>, tip: Option<BlockIndex>, clock: Clock)
    requires Core(params, world, d, path, tip, clock)
    ensures StoreOk(d, path) && IndexClosed(d, RootOf(path)) && tip == TipIndex(path)
    ensures |path| == 0 ==> d.hashIndex == map[]
  {
    hide StoreOk, IndexClosed, WorldOk, ValidPath, InWorld;
  }

  lemma TipAppend(path: seq<Block>, b: Block)
    ensures TipIndex(path + [b]) == Some(IndexOf(RootOf(path + [b]), BlockHash(b)))
  {
    hide IndexOf, RootOf;
  }

  /** The three ways a cut save can end. */
  lemma SaveEnds(d: Disk, path: seq<Block>, b: Block, diff: Diff, k: nat, cuts: seq<nat>)
    requires StoreOk(d, path) && Linked(path + [b]) && Exact(Replay(path), b.txs, |path|, diff)
    requires k <= |SaveSteps(path, b, diff)|
    ensures var n, d', idx := |SaveSteps(path, b, diff)|, AfterSave(d, path, b, diff, k, cuts), IndexOf(RootOf(path + [b]), BlockHash(b));
      && n > 2
      && (k == 0 ==> d' == d)
      && (0 < k < n - 1 ==> RolledBack(d, idx, diff, d'))
      && (n - 1 <= k ==> d' == Saved(d, b, idx, diff))
  {
    hide StoreOk, Exact, Linked, ApplyAll, Crashes, Recovered, IndexOf, RolledBack, Saved, Removals, Puts, UndoOf, JournalOf;
    SaveConnectable(d, path, b, diff);
    ConnectCrash(d, b, IndexOf(RootOf(path + [b]), BlockHash(b)), diff, k, cuts);
  }

  lemma RolledBackBase(params: Params, world: iset<Block>, d: Disk, path: seq<Block>, tip: Option<BlockIndex>, clock: Clock,
                       b: Block, diff: Diff, d': Disk)
    requires Core(params, world, d, path, tip, clock) && Linked(path + [b])
    requires Exact(Replay(path), b.txs, |path|, diff) && Fresh(Replay(path), b.txs)
    requires RolledBack(d, IndexOf(RootOf(path + [b]), BlockHash(b)), diff, d')
    ensures Base(params, world, d', path, tip, clock)
  {
    RolledBackOk(d, path, b, diff, d');
    RecordsAfter(d, RootOf(path), IndexOf(RootOf(path + [b]), BlockHash(b)), diff, d');
    hide StoreOk, IndexClosed, RecordsOk, WorldOk, ValidPath, InWorld, Linked, Exact, Fresh, IndexOf, RootOf, WriteAll, KeysOf;
  }

  /** A rollback removes one record and keeps every other. */
  lemma RecordsAfter(d: Disk, g: Hash, idx: BlockIndex, diff: Diff, d': Disk)
    requires IndexClosed(d, g) && RolledBack(d, idx, diff, d')
    ensures RecordsOk(d', g) && (d.hashIndex == map[] ==> d'.hashIndex == map[])
  {
    hide WriteAll, KeysOf, Rooted, IndexOf;
    forall h | h in d'.hashIndex
      ensures RecordOk(d', g, h)
    {
      assert h in d.hashIndex && EntryClosed(d, g, h);
    }
  }

  lemma GapIff(d: Disk, path: seq<Block>, b: Block, diff: Diff, d': Disk)
    requires IndexClosed(d, RootOf(path)) && Linked(path + [b]) && (|path| == 0 ==> d.hashIndex == map[])
    requires RolledBack(d, IndexOf(RootOf(path + [b]), BlockHash(b)), diff, d')
    ensures RecordsOk(d', RootOf(path))
    ensures NoGap(d', RootOf(path)) <==> !HasChild(d, BlockHash(b))
  {
    var g, idx := RootOf(path), IndexOf(RootOf(path + [b]), BlockHash(b));
    IndexHash(path, b);
    RecordsAfter(d, g, idx, diff, d');
    RollbackClosedIff(d, g, idx, diff, d');
    ClosedIs(d', g);
    OwnParents(path, b);
    hide IndexClosed, RecordsOk, NoGap, RolledBack, Linked, IndexOf, Depth, RootOf;
    if HasChild(d, BlockHash(b)) {
      var x :| x in d.hashIndex && x.HeaderHash? && x.header.prev == BlockHash(b);
      assert x != g && x != BlockHash(b);
    }
  }

  lemma IndexHash(path: seq<Block>, b: Block)
    ensures IndexOf(RootOf(path + [b]), BlockHash(b)).hash == BlockHash(b)
  {
  }

  /** Neither the first block nor `b` itself is a child of `b`. */
  lemma OwnParents(path: seq<Block>, b: Block)
    requires Linked(path + [b])
    ensures b.header.prev != BlockHash(b)
    ensures |path| > 0 ==> RootOf(path).HeaderHash? && RootOf(path).header.prev != BlockHash(b)
  {
    assert Depth(BlockHash(b)) == 1 + Depth(b.header.prev);
    if |path| > 0 {
      var whole := path + [b];
      DepthOnPath(whole, |path|);
      assert RootOf(whole) == RootOf(path) && whole[|path|] == b;
      assert Depth(RootOf(path)) == 1 + Depth(RootOf(path).header.prev);
    }
  }

  /** Cut a disconnect of the tip anywhere: the store satisfies the whole invariant of the node,
    for the old chain if not even the journal was written, and for the shorter one otherwise. */
  lemma CrashedDisconnectCore(params: Params, world: iset<Block>, d: Disk, path: seq<Block>, tip: Option<BlockIndex>, clock: Clock,
                              k: nat, cuts: seq<nat>)
    requires Core(params, world, d, path, tip, clock) && |path| > 1
    ensures TipOf(path) in d.undo && |path| - 2 in d.heightIndex
    ensures var ws := DisconnectWrites(TipOf(path), d.heightIndex[|path| - 2], d.undo[TipOf(path)]);
      var after := if k == 0 then path else path[..|path| - 1];
      k <= |ws| ==> Core(params, world, Recovered(Crashes(ApplyAll(d, ws[..k]), cuts)), after, TipIndex(after), clock)
  {
    hide *;
    CoreDisconnect(params, world, d, path, tip, clock);
    CoreParts(params, world, d, path, tip, clock);
    NoJournal(d, path);
    TipOfFront(path);
    var prevTip, undo := d.heightIndex[|path| - 2], d.undo[TipOf(path)];
    if k <= |DisconnectWrites(TipOf(path), prevTip, undo)| {
      DisconnectCrash(d, TipOf(path), prevTip, undo, k, cuts);
    }
  }

  lemma NoJournal(d: Disk, path: seq<Block>)
    requires StoreOk(d, path)
    ensures d.journal == None
  {
  }

  lemma TipOfFront(path: seq<Block>)
    requires |path| > 1
    ensures var front := path[..|path| - 1];
      TipIndex(front) == Some(IndexOf(RootOf(front), TipOf(front)))
  {
  }
}
