/** What a disk holds for an active chain, and that connecting, disconnecting and crashing keep it. */
module Active {
  import opened Wire
  import opened Ledger
  import opened Batch
  import opened ChainPath
  import opened Storage

  function HeightMap(path: seq<Block>): map<int, BlockIndex> {
    map i: int | 0 <= i < |path| :: IndexOf(RootOf(path), BlockHash(path[i]))
  }

  function TipIndex(path: seq<Block>): Option<BlockIndex> {
    if |path| == 0 then None else Some(IndexOf(RootOf(path), TipOf(path)))
  }

  /** The undo record takes the set after a block back to the set before it. */
  ghost predicate UndoFits(utxo: UtxoSet, block: Block, height: int, undo: UndoData) {
    var n := |block.txs|;
    var external := Seen(block.txs, n) - Consumed(block.txs, n, height);
    && SetOf(undo.addedKeys) == Pending(block.txs, n, height).Keys
    && external <= utxo.Keys
    && Lists(undo.spent, Restrict(utxo, external))
  }

  /** Block file and hash index of one active block. */
  ghost predicate Stored(d: Disk, path: seq<Block>, i: nat)
    requires i < |path|
  {
    var h := BlockHash(path[i]);
    && h in d.blocks && d.blocks[h] == path[i]
    && h in d.hashIndex && d.hashIndex[h] == IndexOf(RootOf(path), h)
  }

  ghost predicate FilesFor(d: Disk, path: seq<Block>, i: nat)
    requires i < |path|
  {
    var h := BlockHash(path[i]);
    && Stored(d, path, i)
    && h in d.undo && UndoFits(Replay(path[..i]), path[i], i, d.undo[h])
  }

  /** What the rebuild routines start from: the tip record and the active blocks, nothing else. */
  ghost predicate HasPath(d: Disk, path: seq<Block>) {
    && Linked(path)
    && d.tip == TipIndex(path)
    && forall i :: 0 <= i < |path| ==> Stored(d, path, i)
  }

  /** The disk at rest with `path` active: the unspent set is the replay of the path, the height
    index is the path, and every active block has its files. */
  ghost predicate StoreOk(d: Disk, path: seq<Block>) {
    && Linked(path)
    && d.journal == None
    && d.tip == TipIndex(path)
    && d.utxo == Replay(path)
    && d.heightIndex == HeightMap(path)
    && forall i :: 0 <= i < |path| ==> FilesFor(d, path, i)
  }

  /** Stored blocks, active or not, are filed under their hash with the index record that the
    hash determines, and their parents are stored too. */
  ghost predicate IndexClosed(d: Disk, g: Hash) {
    forall h :: h in d.hashIndex ==> EntryClosed(d, g, h)
  }

  ghost predicate EntryClosed(d: Disk, g: Hash, h: Hash)
    requires h in d.hashIndex
  {
    && h.HeaderHash? && Rooted(g, h)
    && h in d.blocks && d.blocks[h].header == h.header
    && d.hashIndex[h] == IndexOf(g, h)
    && (h == g || h.header.prev in d.hashIndex)
  }

  /** Every hash record is the one the hash determines, with its block file beside it. */
  ghost predicate RecordsOk(d: Disk, g: Hash) {
    forall h :: h in d.hashIndex ==> RecordOk(d, g, h)
  }

  ghost predicate RecordOk(d: Disk, g: Hash, h: Hash)
    requires h in d.hashIndex
  {
    && h.HeaderHash? && Rooted(g, h)
    && h in d.blocks && d.blocks[h].header == h.header
    && d.hashIndex[h] == IndexOf(g, h)
  }

  /** No stored block lacks its parent. */
  ghost predicate NoGap(d: Disk, g: Hash) {
    forall h :: h in d.hashIndex && h.HeaderHash? && h != g ==> h.header.prev in d.hashIndex
  }

  lemma ClosedIs(d: Disk, g: Hash)
    ensures IndexClosed(d, g) <==> RecordsOk(d, g) && NoGap(d, g)
  {
    hide Rooted, IndexOf;
    assert IndexClosed(d, g) ==> forall h :: h in d.hashIndex ==> EntryClosed(d, g, h);
    assert RecordsOk(d, g) ==> forall h :: h in d.hashIndex ==> RecordOk(d, g, h);
  }

  // ----- Connect -----

  lemma RootAppend(path: seq<Block>, b: Block)
    ensures RootOf(path + [b]) == if |path| == 0 then BlockHash(b) else RootOf(path)
    ensures TipOf(path + [b]) == BlockHash(b)
  {
  }

  lemma ReplayAppend(path: seq<Block>, b: Block)
    ensures Replay(path + [b]) == ApplyBlock(Replay(path), b, |path|)
  {
    assert (path + [b])[..|path|] == path;
  }

  lemma HeightMapAppend(path: seq<Block>, b: Block)
    requires Linked(path + [b])
    ensures var idx := IndexOf(RootOf(path + [b]), BlockHash(b));
      idx.height == |path| && HeightMap(path + [b]) == HeightMap(path)[idx.height := idx]
  {
    OnPath(path + [b], |path|);
    RootAppend(path, b);
    var idx := IndexOf(RootOf(path + [b]), BlockHash(b));
    var whole := path + [b];
    forall i: int | 0 <= i < |whole|
      ensures HeightMap(whole)[i] == HeightMap(path)[idx.height := idx][i]
    {
      assert i < |path| ==> whole[i] == path[i];
    }
  }

  lemma SavedUtxo(path: seq<Block>, b: Block, diff: Diff)
    requires Exact(Replay(path), b.txs, |path|, diff) && Fresh(Replay(path), b.txs)
    ensures Commit(Replay(path), diff) == Replay(path + [b])
    ensures UndoFits(Replay(path), b, |path|, UndoOf(diff))
  {
    FreshBlock(Replay(path), b.txs, |path|, diff);
    ReplayAppend(path, b);
    AddedKeysSet(diff.adds);
  }

  lemma SavedOldFiles(d: Disk, path: seq<Block>, b: Block, idx: BlockIndex, diff: Diff, i: nat)
    requires i < |path| && FilesFor(d, path, i) && BlockHash(path[i]) != BlockHash(b)
    requires idx.hash == BlockHash(b)
    ensures FilesFor(Saved(d, b, idx, diff), path + [b], i)
  {
    assert (path + [b])[i] == path[i] && (path + [b])[..i] == path[..i];
    hide UndoFits, IndexOf, Replay, Commit, UndoOf;
  }

  lemma SavedNewFiles(d: Disk, path: seq<Block>, b: Block, idx: BlockIndex, diff: Diff)
    requires idx == IndexOf(RootOf(path + [b]), BlockHash(b))
    requires UndoFits(Replay(path), b, |path|, UndoOf(diff))
    ensures FilesFor(Saved(d, b, idx, diff), path + [b], |path|)
  {
    hide Replay, Commit, UndoOf, RootOf, UndoFits;
    var whole, n := path + [b], |path|;
    assert whole[..n] == path && whole[n] == b;
    var d' := Saved(d, b, idx, diff);
    assert BlockHash(b) in d'.undo && d'.undo[BlockHash(b)] == UndoOf(diff);
    assert Stored(d', whole, n);
  }

  lemma SavedFiles(d: Disk, path: seq<Block>, b: Block, idx: BlockIndex, diff: Diff, i: nat)
    requires StoreOk(d, path) && Linked(path + [b])
    requires idx == IndexOf(RootOf(path + [b]), BlockHash(b))
    requires UndoFits(Replay(path), b, |path|, UndoOf(diff))
    requires i <= |path|
    ensures FilesFor(Saved(d, b, idx, diff), path + [b], i)
  {
    hide FilesFor, UndoFits, Replay, Commit, UndoOf, HeightOf, WorkOf, ParentOf, Linked;
    if i < |path| {
      PathHashesDiffer(path + [b], i, |path|);
      assert (path + [b])[i] == path[i];
      SavedOldFiles(d, path, b, idx, diff, i);
    } else {
      SavedNewFiles(d, path, b, idx, diff);
    }
  }

  /** Saving a valid block moves the disk from one chain to the chain extended by it. */
  lemma SavedOk(d: Disk, path: seq<Block>, b: Block, diff: Diff)
    requires StoreOk(d, path) && Linked(path + [b])
    requires Exact(Replay(path), b.txs, |path|, diff) && Fresh(Replay(path), b.txs)
    ensures StoreOk(Saved(d, b, IndexOf(RootOf(path + [b]), BlockHash(b)), diff), path + [b])
  {
    SavedUtxo(path, b, diff);
    HeightMapAppend(path, b);
    forall i | 0 <= i < |path| + 1
      ensures FilesFor(Saved(d, b, IndexOf(RootOf(path + [b]), BlockHash(b)), diff), path + [b], i)
    {
      SavedFiles(d, path, b, IndexOf(RootOf(path + [b]), BlockHash(b)), diff, i);
    }
    hide FilesFor, IndexOf, Commit, Replay, HeightMap, Linked;
  }

  lemma SavedClosed(d: Disk, path: seq<Block>, b: Block, diff: Diff)
    requires StoreOk(d, path) && IndexClosed(d, RootOf(path)) && Linked(path + [b])
    requires |path| == 0 ==> d.hashIndex == map[]
    ensures IndexClosed(Saved(d, b, IndexOf(RootOf(path + [b]), BlockHash(b)), diff), RootOf(path + [b]))
  {
    var idx := IndexOf(RootOf(path + [b]), BlockHash(b));
    var d' := Saved(d, b, idx, diff);
    OnPath(path + [b], |path|);
    RootAppend(path, b);
    if |path| > 0 {
      assert FilesFor(d, path, |path| - 1);
      assert (path + [b])[|path| - 1] == path[|path| - 1];
    }
    forall h | h in d'.hashIndex
      ensures EntryClosed(d', RootOf(path + [b]), h)
    {
      assert h != BlockHash(b) ==> h in d.hashIndex && EntryClosed(d, RootOf(path), h);
      hide IndexOf, HeightMap, Replay, UndoFits, Commit, FilesFor, IndexClosed, Rooted, StoreOk;
    }
    hide IndexOf, HeightMap, Replay, UndoFits, Commit, FilesFor, EntryClosed, StoreOk;
  }

  // ----- Disconnect -----

  lemma UndoneMap(utxo: UtxoSet, seen: set<OutPoint>, consumed: set<OutPoint>, pending: UtxoSet)
    requires consumed <= seen && seen - consumed <= utxo.Keys
    requires consumed !! utxo.Keys && pending.Keys !! utxo.Keys
    ensures (((utxo - seen) + pending) - pending.Keys) + Restrict(utxo, seen - consumed) == utxo
  {
    var r := (((utxo - seen) + pending) - pending.Keys) + Restrict(utxo, seen - consumed);
    assert r.Keys == utxo.Keys;
  }

  /** Undo is the inverse of connect. */
  lemma UndoneIsBefore(utxo: UtxoSet, block: Block, height: int, undo: UndoData)
    requires UndoFits(utxo, block, height, undo) && Fresh(utxo, block.txs)
    ensures Undone(ApplyBlock(utxo, block, height), undo) == utxo
  {
    var txs, n := block.txs, |block.txs|;
    ViewIsSequential(utxo, txs, n, height);
    ConsumedIsSeen(txs, n, height);
    PendingKeys(txs, n, height);
    var seen, consumed, pending := Seen(txs, n), Consumed(txs, n, height), Pending(txs, n, height);
    WriteAllIsMerge(ApplyBlock(utxo, block, height) - pending.Keys, undo.spent, Restrict(utxo, seen - consumed));
    UndoneMap(utxo, seen, consumed, pending);
    hide WriteAll, Lists, Restrict;
  }

  lemma FilesShorter(d: Disk, prevTip: BlockIndex, undo: UndoData, path: seq<Block>, i: nat)
    requires StoreOk(d, path) && i < |path| - 1
    ensures FilesFor(Disconnected(d, prevTip, undo), path[..|path| - 1], i)
  {
    var front := path[..|path| - 1];
    assert FilesFor(d, path, i);
    assert front[i] == path[i] && front[..i] == path[..i] && RootOf(front) == RootOf(path);
    hide UndoFits, IndexOf, Replay, Undone;
  }

  /** Disconnecting the tip moves the disk back to the chain without it. */
  lemma DisconnectedOk(d: Disk, path: seq<Block>)
    requires StoreOk(d, path) && |path| > 1
    requires Fresh(Replay(path[..|path| - 1]), path[|path| - 1].txs)
    ensures TipOf(path) in d.undo && |path| - 2 in d.heightIndex
    ensures var front := path[..|path| - 1];
      && d.heightIndex[|path| - 2] == IndexOf(RootOf(front), TipOf(front))
      && StoreOk(Disconnected(d, d.heightIndex[|path| - 2], d.undo[TipOf(path)]), front)
  {
    var front, last := path[..|path| - 1], path[|path| - 1];
    assert FilesFor(d, path, |path| - 1);
    HeightMapShorter(path);
    var prevTip, undo := d.heightIndex[|path| - 2], d.undo[TipOf(path)];
    UndoneIsBefore(Replay(front), last, |front|, undo);
    forall i | 0 <= i < |front|
      ensures FilesFor(Disconnected(d, prevTip, undo), front, i)
    {
      FilesShorter(d, prevTip, undo, path, i);
    }
    hide FilesFor, UndoFits, Undone, Rooted, HeightMap, IndexOf, ApplyBlock, Fresh;
  }

  lemma HeightMapShorter(path: seq<Block>)
    requires Linked(path) && |path| > 1
    ensures var front := path[..|path| - 1];
      && |path| - 2 in HeightMap(path)
      && Linked(front)
      && TipIndex(front) == Some(HeightMap(path)[|path| - 2])
      && HeightMap(path)[|path| - 2].height == |path| - 2
      && HeightMap(front) == HeightMap(path) - {|path| - 1}
  {
    var front := path[..|path| - 1];
    OnPath(path, |path| - 2);
    assert RootOf(front) == RootOf(path) && TipOf(front) == BlockHash(path[|path| - 2]);
    forall i: int | 0 <= i < |front|
      ensures HeightMap(front)[i] == HeightMap(path)[i]
    {
      assert front[i] == path[i];
    }
  }

  // ----- Crash -----

  /** A rollback deletes the block's hash record whether or not the block was stored before.  The
    index stays closed under parents exactly when no other stored block has it as its parent. */
  lemma RollbackClosedIff(d: Disk, g: Hash, idx: BlockIndex, diff: Diff, d': Disk)
    requires IndexClosed(d, g) && RolledBack(d, idx, diff, d')
    ensures forall x :: x in d.hashIndex ==> x.HeaderHash?
    ensures IndexClosed(d', g)
       <==> forall x :: x in d.hashIndex && x != idx.hash && x != g ==> x.header.prev != idx.hash
  {
    hide EntryClosed, RolledBack;
    forall x | x in d.hashIndex
      ensures x.HeaderHash?
      ensures x != idx.hash ==> x in d'.hashIndex && (EntryClosed(d', g, x) <==> (x == g || x.header.prev != idx.hash))
      ensures x == idx.hash ==> x !in d'.hashIndex
    {
      assert EntryClosed(d, g, x);
      EntryAfterRollback(d, g, idx, diff, d', x);
    }
    assert d'.hashIndex.Keys <= d.hashIndex.Keys by {
      KeysAfterRollback(d, idx, diff, d');
    }
  }

  lemma KeysAfterRollback(d: Disk, idx: BlockIndex, diff: Diff, d': Disk)
    requires RolledBack(d, idx, diff, d')
    ensures d'.hashIndex.Keys <= d.hashIndex.Keys
  {
    hide WriteAll, KeysOf;
  }

  lemma EntryAfterRollback(d: Disk, g: Hash, idx: BlockIndex, diff: Diff, d': Disk, x: Hash)
    requires RolledBack(d, idx, diff, d') && x in d.hashIndex && EntryClosed(d, g, x)
    ensures x.HeaderHash?
    ensures x != idx.hash ==> x in d'.hashIndex && (EntryClosed(d', g, x) <==> (x == g || x.header.prev != idx.hash))
    ensures x == idx.hash ==> x !in d'.hashIndex
  {
    hide WriteAll, KeysOf, Rooted, IndexOf;
  }

  /** A crash anywhere in saving a block, and anywhere in any number of recoveries, leaves the
    store on the old chain or on the extended one, and never between. */
  lemma CrashedSaveOk(d: Disk, path: seq<Block>, b: Block, diff: Diff, k: nat, cuts: seq<nat>)
    requires StoreOk(d, path) && Linked(path + [b])
    requires Exact(Replay(path), b.txs, |path|, diff) && Fresh(Replay(path), b.txs)
    requires k <= |SaveWrites(b, IndexOf(RootOf(path + [b]), BlockHash(b)), diff)|
    ensures var ws := SaveWrites(b, IndexOf(RootOf(path + [b]), BlockHash(b)), diff);
      StoreOk(Recovered(Crashes(ApplyAll(d, ws[..k]), cuts)), if k < |ws| - 1 then path else path + [b])
  {
    hide StoreOk, Exact, Fresh, Linked, ApplyAll, Crashes, SaveWrites, Recovered, IndexOf, RolledBack, Saved;
    var idx := IndexOf(RootOf(path + [b]), BlockHash(b));
    var ws := SaveWrites(b, idx, diff);
    SaveConnectable(d, path, b, diff);
    ConnectCrash(d, b, idx, diff, k, cuts);
    if |ws| - 1 <= k {
      SavedOk(d, path, b, diff);
    } else if k > 0 {
      RolledBackOk(d, path, b, diff, Recovered(Crashes(ApplyAll(d, ws[..k]), cuts)));
    }
  }

  lemma RolledBackOk(d: Disk, path: seq<Block>, b: Block, diff: Diff, d': Disk)
    requires StoreOk(d, path) && Linked(path + [b])
    requires Exact(Replay(path), b.txs, |path|, diff) && Fresh(Replay(path), b.txs)
    requires RolledBack(d, IndexOf(RootOf(path + [b]), BlockHash(b)), diff, d')
    ensures StoreOk(d', path)
  {
    assert IndexOf(RootOf(path + [b]), BlockHash(b)).hash == BlockHash(b);
    hide UndoFits, WriteAll, HeightMap, KeysOf, HeightOf, WorkOf, ParentOf, IndexOf, FilesFor, Exact, Fresh, Linked, Replay;
    RolledBackUtxo(d.utxo, b.txs, |path|, diff);
    forall i | 0 <= i < |path|
      ensures FilesFor(d', path, i)
    {
      PathHashesDiffer(path + [b], i, |path|);
      assert (path + [b])[i] == path[i] && FilesFor(d, path, i);
      FilesSurvive(d, path, IndexOf(RootOf(path + [b]), BlockHash(b)), diff, d', i);
    }
  }

  /** Another block's files are untouched by the rollback. */
  lemma FilesSurvive(d: Disk, path: seq<Block>, idx: BlockIndex, diff: Diff, d': Disk, i: nat)
    requires i < |path| && FilesFor(d, path, i) && RolledBack(d, idx, diff, d') && BlockHash(path[i]) != idx.hash
    ensures FilesFor(d', path, i)
  {
    hide UndoFits, WriteAll, KeysOf, IndexOf, Replay;
  }

  lemma RolledBackUtxo(utxo: UtxoSet, txs: seq<Tx>, height: int, diff: Diff)
    requires Exact(utxo, txs, height, diff) && Fresh(utxo, txs)
    ensures WriteAll(utxo - KeysOf(diff.adds), diff.spent) == utxo
  {
    var external := Seen(txs, |txs|) - Consumed(txs, |txs|, height);
    PendingKeys(txs, |txs|, height);
    WriteAllIsMerge(utxo - KeysOf(diff.adds), diff.spent, Restrict(utxo, external));
    assert (utxo - KeysOf(diff.adds)) == utxo;
    assert utxo + Restrict(utxo, external) == utxo;
    hide WriteAll, Seen, Consumed, Pending, Lists, Restrict;
  }

  lemma SaveConnectable(d: Disk, path: seq<Block>, b: Block, diff: Diff)
    requires StoreOk(d, path) && Linked(path + [b]) && Exact(Replay(path), b.txs, |path|, diff)
    ensures Connectable(d, IndexOf(RootOf(path + [b]), BlockHash(b)), diff)
  {
    var whole := path + [b];
    OnPath(whole, |path|);
    if |path| > 0 {
      PathHashesDiffer(whole, |path| - 1, |path|);
      assert whole[|path| - 1] == path[|path| - 1];
    }
    hide HeightOf, WorkOf, Replay, FilesFor, Seen, Consumed, Pending;
  }

  /** A crash anywhere in disconnecting the tip: the old chain, or the chain without its tip. */
  lemma CrashedDisconnectOk(d: Disk, path: seq<Block>, k: nat, cuts: seq<nat>)
    requires StoreOk(d, path) && |path| > 1
    requires Fresh(Replay(path[..|path| - 1]), path[|path| - 1].txs)
    ensures TipOf(path) in d.undo && |path| - 2 in d.heightIndex
    ensures var ws := DisconnectWrites(TipOf(path), d.heightIndex[|path| - 2], d.undo[TipOf(path)]);
      k <= |ws| ==>
        StoreOk(Recovered(Crashes(ApplyAll(d, ws[..k]), cuts)), if k == 0 then path else path[..|path| - 1])
  {
    DisconnectedOk(d, path);
    var prevTip, undo := d.heightIndex[|path| - 2], d.undo[TipOf(path)];
    if k <= |DisconnectWrites(TipOf(path), prevTip, undo)| {
      DisconnectCrash(d, TipOf(path), prevTip, undo, k, cuts);
    }
  }
}
