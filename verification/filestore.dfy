/** The store object: methods that write files one at a time, and the log of what they wrote. */
module Store {
  import opened Wire
  import opened Ledger
  import opened Batch
  import opened Supply
  import opened Unique
  import opened ChainPath
  import opened Storage
  import opened Active

  method ListKeys(es: seq<Entry>) returns (keys: seq<OutPoint>)
    ensures keys == AddedKeys(es)
  {
    keys := [];
    for i := 0 to |es|
      invariant keys == AddedKeys(es[..i])
    {
      keys := keys + [es[i].key];
    }
    assert es[..|es|] == es;
  }

  /** The height records from height n up. */
  function HeightMapFrom(path: seq<Block>, n: int): map<int, BlockIndex> {
    map i: int | 0 <= i < |path| && n <= i :: IndexOf(RootOf(path), BlockHash(path[i]))
  }

  lemma HeightMapFromStep(path: seq<Block>, i: nat)
    requires i < |path|
    ensures HeightMapFrom(path, i) == HeightMapFrom(path, i + 1)[i := IndexOf(RootOf(path), BlockHash(path[i]))]
  {
  }

  function Reindexed(d: Disk, path: seq<Block>, n: int): Disk {
    d.(heightIndex := d.heightIndex + HeightMapFrom(path, n))
  }

  lemma ReindexStep(d: Disk, path: seq<Block>, i: nat)
    requires i < |path|
    ensures Apply(Reindexed(d, path, i + 1), WriteHeightIndex(i, IndexOf(RootOf(path), BlockHash(path[i]))))
         == Reindexed(d, path, i)
  {
    var more, idx := HeightMapFrom(path, i + 1), IndexOf(RootOf(path), BlockHash(path[i]));
    HeightMapFromStep(path, i);
    MergeOne(d.heightIndex, more, i, idx);
    hide HeightMapFrom, IndexOf, RootOf;
  }

  lemma MergeOne<K, V>(a: map<K, V>, b: map<K, V>, k: K, v: V)
    ensures a + b[k := v] == (a + b)[k := v]
  {
  }

  lemma RollbackDataIs(idx: BlockIndex, adds: seq<Entry>, spent: seq<Entry>, before: seq<Write>)
    ensures before + RollbackData(idx, adds, spent)
         == before + Removals(AddedKeys(adds)) + Puts(spent) + [RemoveBlock(idx.hash)] + [RemoveHashIndex(idx.hash)]
            + [RemoveHeightIndex(idx.height)] + [RemoveUndo(idx.hash)]
  {
    hide Removals, AddedKeys, Puts;
  }

  lemma SaveDataLogged(block: Block, idx: BlockIndex, d: Diff, before: seq<Write>)
    ensures before + SaveData(block, idx, d)
         == before + [WriteBlock(idx.hash, block)] + [WriteHashIndex(idx.hash, idx)] + [WriteHeightIndex(idx.height, idx)]
            + Removals(d.spends) + Puts(d.adds) + [WriteUndo(idx.hash, UndoData(AddedKeys(d.adds), d.spent))]
  {
    SaveDataIs(block, idx, d);
    hide Removals, AddedKeys, Puts, SaveData;
  }

  lemma StoredFacts(d: Disk, path: seq<Block>, i: nat)
    requires HasPath(d, path) && i < |path|
    ensures var h := BlockHash(path[i]);
      && h in d.blocks && d.blocks[h] == path[i]
      && h in d.hashIndex && d.hashIndex[h] == IndexOf(RootOf(path), h)
      && d.hashIndex[h].height == i && d.hashIndex[h].time == path[i].header.time
      && (i > 0 ==> path[i].header.prev == BlockHash(path[i - 1]))
  {
    OnPath(path, i);
    assert Stored(d, path, i);
  }

  lemma HasPathKept(d: Disk, d': Disk, path: seq<Block>)
    requires HasPath(d, path) && d'.tip == d.tip && d'.blocks == d.blocks && d'.hashIndex == d.hashIndex
    ensures HasPath(d', path)
  {
    forall i | 0 <= i < |path|
      ensures Stored(d', path, i)
    {
      assert Stored(d, path, i);
    }
  }

  lemma TipHeight(path: seq<Block>)
    requires Linked(path)
    ensures |path| > 0 ==> TipIndex(path).value.height == |path| - 1 && TipIndex(path).value.hash == BlockHash(path[|path| - 1])
  {
    if |path| > 0 {
      OnPath(path, |path| - 1);
    }
  }

  class FileStore {
    var disk: Disk
    ghost var start: Disk
    ghost var log: seq<Write>

    /** The disk is what the logged writes made of the starting disk, in that order. */
    ghost predicate Traced()
      reads this
    {
      disk == ApplyAll(start, log)
    }

    constructor (d: Disk)
      ensures Traced() && disk == d && log == []
    {
      disk, start, log := d, d, [];
    }

    /** The only way a file changes. */
    method Do(w: Write)
      requires Traced()
      modifies this
      ensures Traced() && start == old(start) && log == old(log) + [w] && disk == Apply(old(disk), w)
    {
      ApplySnoc(start, log, w);
      disk := Apply(disk, w);
      log := log + [w];
    }

    method RemoveUtxos(keys: seq<OutPoint>)
      requires Traced()
      modifies this
      ensures Traced() && start == old(start) && log == old(log) + Removals(keys)
    {
      for i := 0 to |keys|
        invariant Traced() && start == old(start) && log == old(log) + Removals(keys[..i])
      {
        Do(RemoveUtxo(keys[i]));
        assert Removals(keys[..i + 1]) == Removals(keys[..i]) + [RemoveUtxo(keys[i])];
      }
      assert keys[..|keys|] == keys;
    }

    method WriteUtxos(es: seq<Entry>)
      requires Traced()
      modifies this
      ensures Traced() && start == old(start) && log == old(log) + Puts(es)
    {
      for i := 0 to |es|
        invariant Traced() && start == old(start) && log == old(log) + Puts(es[..i])
      {
        Do(WriteUtxo(es[i]));
        assert Puts(es[..i + 1]) == Puts(es[..i]) + [WriteUtxo(es[i])];
      }
      assert es[..|es|] == es;
    }

    method SaveFiles(block: Block, idx: BlockIndex, d: Diff)
      requires Traced()
      modifies this
      ensures Traced() && start == old(start) && log == old(log) + SaveData(block, idx, d)
    {
      hide *;
      Do(WriteBlock(idx.hash, block));
      Do(WriteHashIndex(idx.hash, idx));
      Do(WriteHeightIndex(idx.height, idx));
      RemoveUtxos(d.spends);
      WriteUtxos(d.adds);
      var addedKeys := ListKeys(d.adds);
      Do(WriteUndo(idx.hash, UndoData(addedKeys, d.spent)));
      SaveDataLogged(block, idx, d, old(log));
    }

    method SaveBlock(block: Block, idx: BlockIndex, d: Diff)
      requires Traced()
      modifies this
      ensures Traced() && start == old(start) && log == old(log) + SaveWrites(block, idx, d)
      ensures disk == Saved(old(disk), block, idx, d)
    {
      ghost var before := log;
      Do(WriteJournal(Connecting(idx, d.adds, d.spends, d.spent)));
      SaveFiles(block, idx, d);
      Do(WriteTip(idx));
      Do(ClearJournal);
      assert log == before + SaveWrites(block, idx, d) by {
        hide SaveData;
      }
      ApplyConcat(start, before, SaveWrites(block, idx, d));
      ApplySave(ApplyAll(start, before), block, idx, d);
      hide Saved, SaveWrites, ApplyAll;
    }

    method ApplyDisconnectFiles(prevTip: BlockIndex, undo: UndoData)
      requires Traced()
      modifies this
      ensures Traced() && start == old(start) && log == old(log) + DisconnectData(prevTip, undo)
    {
      RemoveUtxos(undo.addedKeys);
      WriteUtxos(undo.spent);
      Do(RemoveHeightIndex(prevTip.height + 1));
      Do(WriteTip(prevTip));
    }

    method DisconnectBlock(hash: Hash, prevTip: BlockIndex, undo: UndoData)
      requires Traced()
      modifies this
      ensures Traced() && start == old(start) && log == old(log) + DisconnectWrites(hash, prevTip, undo)
      ensures disk == Disconnected(old(disk), prevTip, undo)
    {
      ghost var before := log;
      Do(WriteJournal(Disconnecting(hash, prevTip, undo)));
      ApplyDisconnectFiles(prevTip, undo);
      Do(ClearJournal);
      assert log == before + DisconnectWrites(hash, prevTip, undo);
      ApplyConcat(start, before, DisconnectWrites(hash, prevTip, undo));
      ApplyDisconnect(ApplyAll(start, before), hash, prevTip, undo);
    }

    method RollbackConnect(idx: BlockIndex, adds: seq<Entry>, spent: seq<Entry>)
      requires Traced()
      modifies this
      ensures Traced() && start == old(start)
      ensures log == old(log) + if Committed(old(disk), idx) then [ClearJournal] else RollbackData(idx, adds, spent) + [ClearJournal]
    {
      if disk.tip.Some? && disk.tip.value.hash == idx.hash {
        Do(ClearJournal);
        return;
      }
      UndoFiles(idx, adds, spent);
      Do(ClearJournal);
    }

    method UndoFiles(idx: BlockIndex, adds: seq<Entry>, spent: seq<Entry>)
      requires Traced()
      modifies this
      ensures Traced() && start == old(start) && log == old(log) + RollbackData(idx, adds, spent)
    {
      hide *;
      RemoveAdded(adds);
      WriteUtxos(spent);
      Do(RemoveBlock(idx.hash));
      Do(RemoveHashIndex(idx.hash));
      Do(RemoveHeightIndex(idx.height));
      Do(RemoveUndo(idx.hash));
      RollbackDataIs(idx, adds, spent, old(log));
    }

    method RemoveAdded(adds: seq<Entry>)
      requires Traced()
      modifies this
      ensures Traced() && start == old(start) && log == old(log) + Removals(AddedKeys(adds))
    {
      for i := 0 to |adds|
        invariant Traced() && start == old(start) && log == old(log) + Removals(AddedKeys(adds[..i]))
      {
        Do(RemoveUtxo(adds[i].key));
        assert Removals(AddedKeys(adds[..i + 1])) == Removals(AddedKeys(adds[..i])) + [RemoveUtxo(adds[i].key)];
      }
      assert adds[..|adds|] == adds;
    }

    /** Undo an interrupted connect, redo an interrupted disconnect. */
    method RecoverJournal()
      requires Traced()
      modifies this
      ensures Traced() && start == old(start) && log == old(log) + RecoverWrites(old(disk))
      ensures disk == Recovered(old(disk))
    {
      ghost var before := log;
      match disk.journal {
        case None =>
        case Some(Connecting(idx, adds, spends, spent)) =>
          RollbackConnect(idx, adds, spent);
        case Some(Disconnecting(hash, prevTip, undo)) =>
          ApplyDisconnectFiles(prevTip, undo);
          Do(ClearJournal);
      }
      ApplyConcat(start, before, RecoverWrites(old(disk)));
    }

    method LoadTip() returns (tip: Option<BlockIndex>)
      requires Traced()
      modifies this
      ensures Traced() && start == old(start) && log == old(log) + RecoverWrites(old(disk))
      ensures disk == Recovered(old(disk)) && tip == disk.tip
    {
      RecoverJournal();
      tip := disk.tip;
    }

    method LoadBlock(hash: Hash) returns (r: Option<(Block, BlockIndex)>)
      ensures r == if hash in disk.hashIndex && hash in disk.blocks
                   then Some((disk.blocks[hash], disk.hashIndex[hash])) else None
    {
      if hash !in disk.hashIndex || hash !in disk.blocks {
        return None;
      }
      return Some((disk.blocks[hash], disk.hashIndex[hash]));
    }

    /** Rewrites the height record of one stored block. */
    method RepairOne(curHash: Hash, ghost path: seq<Block>, ghost i: nat, ghost d0: Disk) returns (prev: Hash, idx: BlockIndex)
      requires Traced() && HasPath(d0, path) && i < |path| && curHash == BlockHash(path[i])
      requires disk == Reindexed(d0, path, i + 1)
      modifies this
      ensures Traced() && start == old(start) && disk == Reindexed(d0, path, i)
      ensures idx == IndexOf(RootOf(path), BlockHash(path[i])) && idx.height == i
      ensures i > 0 ==> prev == BlockHash(path[i - 1])
    {
      StoredFacts(d0, path, i);
      ReindexStep(d0, path, i);
      assert disk.hashIndex == d0.hashIndex && disk.blocks == d0.blocks;
      hide *;
      var loaded := LoadBlock(curHash);
      var (block, index) := loaded.value;
      Do(WriteHeightIndex(index.height, index));
      prev, idx := block.header.prev, index;
    }

    /** Walks back from the tip, rewriting height records until the wanted one. */
    method RepairHeightIndexFromTip(height: int, ghost path: seq<Block>) returns (r: Option<BlockIndex>)
      requires Traced() && HasPath(disk, path)
      modifies this
      ensures Traced() && start == old(start)
      ensures if 0 <= height < |path|
        then r == Some(IndexOf(RootOf(path), BlockHash(path[height]))) && disk == Reindexed(old(disk), path, height)
        else r == None && disk == old(disk)
    {
      TipHeight(path);
      if height < 0 || disk.tip.None? || disk.tip.value.height < height || disk.tip.value.hash == ZeroHash {
        return None;
      }
      ghost var d0, i := disk, |path| - 1;
      var curHash := disk.tip.value.hash;
      assert HeightMapFrom(path, |path|) == map[];
      hide HeightMapFrom, HasPath, Stored, IndexOf, Traced, Linked, TipIndex;
      while true
        invariant Traced() && start == old(start) && disk == Reindexed(d0, path, i + 1)
        invariant height <= i < |path| && curHash == BlockHash(path[i])
        decreases i
      {
        var prev, idx := RepairOne(curHash, path, i, d0);
        if idx.height == height {
          return Some(idx);
        }
        if idx.height == 0 {
          break;
        }
        curHash := prev;
        i := i - 1;
      }
      r := None;
    }

    method LoadIndexByHeight(height: int, ghost path: seq<Block>) returns (r: Option<BlockIndex>)
      requires Traced() && HasPath(disk, path)
      modifies this
      ensures Traced() && start == old(start)
      ensures height in old(disk).heightIndex ==>
        r == Some(old(disk).heightIndex[height]) && disk == old(disk) && log == old(log)
      ensures height !in old(disk).heightIndex && 0 <= height < |path| ==>
        r == Some(IndexOf(RootOf(path), BlockHash(path[height]))) && disk == Reindexed(old(disk), path, height)
      ensures height !in old(disk).heightIndex && !(0 <= height < |path|) ==> r == None && disk == old(disk)
    {
      if height in disk.heightIndex {
        return Some(disk.heightIndex[height]);
      }
      r := RepairHeightIndexFromTip(height, path);
    }

    /** Whatever the height records were, those of the active chain are right afterwards. */
    method RepairHeightIndex(ghost path: seq<Block>)
      requires Traced() && HasPath(disk, path)
      modifies this
      ensures Traced() && start == old(start)
      ensures disk == old(disk).(heightIndex := old(disk).heightIndex + HeightMap(path))
    {
      if disk.tip.None? || disk.tip.value.hash == ZeroHash {
        assert HeightMap(path) == map[];
        return;
      }
      var _ := RepairHeightIndexFromTip(0, path);
      assert HeightMapFrom(path, 0) == HeightMap(path);
    }

    /** Takes a transaction's inputs from the pending map or else from disk; `gone` is what left
      the disk. */
    method RebuildInputs(tx: Tx, pending: UtxoSet) returns (rest: UtxoSet, ghost gone: set<OutPoint>)
      requires Traced()
      modifies this
      ensures Traced() && start == old(start)
      ensures rest == pending - InKeys(tx.ins, |tx.ins|)
      ensures disk == old(disk).(utxo := old(disk).utxo - gone)
      ensures gone <= InKeys(tx.ins, |tx.ins|) <= gone + pending.Keys
    {
      hide *;
      rest, gone := pending, {};
      ghost var d0 := disk;
      TakenNone(d0, pending, tx.ins);
      for j := 0 to |tx.ins|
        invariant Traced() && start == old(start)
        invariant Taken(d0, pending, tx.ins, j, rest, gone, disk)
      {
        var key := tx.ins[j].prev;
        TakenNext(d0, pending, tx.ins, j, rest, gone, disk);
        if key in rest {
          rest := rest - {key};
        } else {
          Do(RemoveUtxo(key));
          gone := gone + {key};
        }
      }
      TakenAll(d0, pending, tx.ins, |tx.ins|, rest, gone, disk);
    }

    /** Writes what survived the block, in any order. */
    method FlushPending(pending: UtxoSet)
      requires Traced() && InRange(pending)
      modifies this
      ensures Traced() && start == old(start)
      ensures disk == old(disk).(utxo := old(disk).utxo + pending)
    {
      var todo := pending.Keys;
      assert pending - todo == map[] && old(disk).utxo + map[] == old(disk).utxo;
      while todo != {}
        invariant Traced() && start == old(start) && todo <= pending.Keys
        invariant disk == old(disk).(utxo := old(disk).utxo + (pending - todo))
        decreases todo
      {
        var k :| k in todo;
        FlushStep(old(disk).utxo, pending, todo, k);
        hide Traced;
        Do(WriteUtxo(pending[k]));
        todo := todo - {k};
      }
      assert pending - {} == pending;
    }

    method RebuildOutputs(tx: Tx, pending: UtxoSet, height: int, coinbase: bool) returns (r: UtxoSet)
      ensures r == pending + Created(tx, height, coinbase)
    {
      r := pending;
      assert pending + CreatedFirst(tx, 0, height, coinbase) == pending;
      assert CreatedFirst(tx, |tx.outs|, height, coinbase) == Created(tx, height, coinbase);
      hide *;
      for vout := 0 to |tx.outs|
        invariant r == pending + CreatedFirst(tx, vout, height, coinbase)
      {
        CreatedOnto(pending, tx, vout, height, coinbase);
        var e := OutEntry(tx, vout, height, coinbase);
        r := r[e.key := e];
      }
    }

    /** Replays one stored block onto the unspent files. */
    method RebuildBlock(rules: TxRules, block: Block, height: nat)
      requires Traced() && BlockTxsOk(rules, disk.utxo, block, height)
      requires Sane(disk.utxo) && Fresh(disk.utxo, block.txs)
      modifies this
      ensures Traced() && start == old(start)
      ensures disk == old(disk).(utxo := ApplyBlock(old(disk).utxo, block, height))
    {
      hide *;
      ghost var utxo, all := disk.utxo, {};
      var pending: UtxoSet := map[];
      var txs := block.txs;
      RebuildStart(rules, utxo, block, height, disk);
      ghost var d0 := disk;
      for i := 0 to |txs|
        invariant Traced() && start == old(start)
        invariant disk == d0.(utxo := disk.utxo)
        invariant Rebuilding(utxo, txs, i, height, pending, all, disk)
      {
        ghost var before := disk;
        var rest, gone := RebuildInputs(txs[i], pending);
        RebuildStep(utxo, txs, i, height, pending, all, gone, before, disk);
        all := all + gone;
        pending := RebuildOutputs(txs[i], rest, height, i == 0);
      }
      RebuildDone(rules, utxo, block, height, pending, all, disk);
      FlushPending(pending);
    }

    /** Replays the active blocks, found through the height records, onto an empty set. */
    method RebuildUtxo(rules: TxRules, ghost path: seq<Block>)
      requires Traced() && HasPath(disk, path) && HeightMap(path) == HeightMapIn(disk, path)
      requires TxsValid(rules, path) && CoinbasesDistinct(path)
      modifies this
      ensures Traced() && start == old(start)
      ensures disk == old(disk).(utxo := if |path| == 0 then old(disk).utxo else Replay(path))
    {
      hide *;
      PathTip(disk, path);
      if disk.tip.None? || disk.tip.value.hash == ZeroHash {
        return;
      }
      var tip := disk.tip.value;
      ghost var d0 := disk;
      Do(RemoveAllUtxo);
      RemovedAll(d0);
      for h := 0 to tip.height + 1
        invariant Traced() && start == old(start)
        invariant disk == d0.(utxo := Replay(path[..h]))
      {
        ActiveAt(rules, d0, disk, path, h);
        var idx := LoadIndexByHeight(h, path);
        var loaded := LoadBlock(idx.value.hash);
        RebuildBlock(rules, loaded.value.0, h);
      }
      assert path[..|path|] == path;
    }

    method RebuildHashIndex(ghost path: seq<Block>)
      requires Traced() && HasPath(disk, path) && HeightMap(path) == HeightMapIn(disk, path)
      modifies this
      ensures Traced() && start == old(start) && disk == old(disk)
    {
      TipHeight(path);
      if disk.tip.None? || disk.tip.value.hash == ZeroHash {
        return;
      }
      var tip := disk.tip.value;
      ghost var d0 := disk;
      hide *;
      for h := 0 to tip.height + 1
        invariant Traced() && start == old(start) && disk == d0
      {
        RecordAt(d0, path, h);
        var idx := LoadIndexByHeight(h, path);
        Do(WriteHashIndex(idx.value.hash, idx.value));
      }
    }

    /** From any height records and any unspent files, the stored tip and blocks alone give back
      the maps that connecting the chain block by block maintains. */
    method RepairIndexes(rules: TxRules, ghost path: seq<Block>)
      requires Traced() && HasPath(disk, path) && |path| > 0
      requires TxsValid(rules, path) && CoinbasesDistinct(path)
      modifies this
      ensures Traced() && start == old(start)
      ensures disk == old(disk).(utxo := Replay(path), heightIndex := old(disk).heightIndex + HeightMap(path))
    {
      hide *;
      ghost var d0 := disk;
      RepairHeightIndex(path);
      HasPathKept(d0, disk, path);
      HeightMapMerged(d0, disk, path);
      RebuildHashIndex(path);
      RebuildUtxo(rules, path);
    }
  }

  /** The part of the height records that lies on the path. */
  function HeightMapIn(d: Disk, path: seq<Block>): map<int, BlockIndex> {
    map i | i in d.heightIndex && 0 <= i < |path| :: d.heightIndex[i]
  }

  lemma PathTip(d: Disk, path: seq<Block>)
    requires HasPath(d, path)
    ensures Replay(path[..0]) == map[]
    ensures d.tip.None? || d.tip.value.hash == ZeroHash <==> |path| == 0
    ensures |path| > 0 ==> d.tip.Some? && d.tip.value.height == |path| - 1
    ensures |path| == 0 ==> d.(utxo := d.utxo) == d
  {
    TipHeight(path);
    hide Stored, Linked;
  }

  lemma RemovedAll(d: Disk)
    ensures Apply(d, RemoveAllUtxo) == d.(utxo := map[])
  {
  }

  lemma RecordAt(d: Disk, path: seq<Block>, h: nat)
    requires HasPath(d, path) && HeightMap(path) == HeightMapIn(d, path) && h < |path|
    ensures h in d.heightIndex && d.heightIndex[h] == IndexOf(RootOf(path), BlockHash(path[h]))
    ensures d.heightIndex[h].hash == BlockHash(path[h])
    ensures Apply(d, WriteHashIndex(BlockHash(path[h]), d.heightIndex[h])) == d
  {
    assert h in HeightMap(path) && HeightMapIn(d, path)[h] == d.heightIndex[h];
    assert Stored(d, path, h);
  }

  /** The next block of a rebuild is on disk and acceptable on the set rebuilt so far. */
  lemma ActiveAt(rules: TxRules, d0: Disk, d: Disk, path: seq<Block>, h: nat)
    requires HasPath(d0, path) && HeightMap(path) == HeightMapIn(d0, path) && h < |path|
    requires TxsValid(rules, path) && CoinbasesDistinct(path)
    requires d == d0.(utxo := Replay(path[..h]))
    ensures HasPath(d, path) && h in d.heightIndex
    ensures var hash := BlockHash(path[h]);
      d.heightIndex[h].hash == hash && hash in d.hashIndex && hash in d.blocks && d.blocks[hash] == path[h]
    ensures Sane(d.utxo) && Fresh(d.utxo, path[h].txs) && BlockTxsOk(rules, d.utxo, path[h], h)
    ensures Replay(path[..h + 1]) == ApplyBlock(d.utxo, path[h], h)
  {
    hide *;
    RecordAt(d0, path, h);
    HasPathKept(d0, d, path);
    StoredFacts(d, path, h);
    NextOk(rules, path, h);
  }

  lemma HeightMapMerged(d0: Disk, d: Disk, path: seq<Block>)
    requires d.heightIndex == d0.heightIndex + HeightMap(path)
    ensures HeightMap(path) == HeightMapIn(d, path)
  {
    forall i: int | 0 <= i < |path|
      ensures i in HeightMapIn(d, path) && HeightMapIn(d, path)[i] == HeightMap(path)[i]
    {
      assert i in HeightMap(path);
      hide IndexOf;
    }
  }

  const NULL_KEY := OutPoint(ZeroTxId, MAX_UINT32)

  /** After n transactions: the pending map is the batch's, and `gone` is what it took from disk,
    give or take outputs the block made itself and the coinbase's null input. */
  ghost predicate Rebuilding(utxo: UtxoSet, txs: seq<Tx>, n: nat, height: int, pending: UtxoSet, gone: set<OutPoint>, d: Disk)
    requires n <= |txs|
  {
    && (|txs| > 0 ==> IsCoinbase(txs[0]))
    && pending == Pending(txs, n, height)
    && d.utxo == utxo - gone
    && gone <= Seen(txs, n) + {NULL_KEY}
    && Seen(txs, n) <= gone + Consumed(txs, n, height)
  }

  lemma RebuildStart(rules: TxRules, utxo: UtxoSet, block: Block, height: int, d: Disk)
    requires d.utxo == utxo && BlockTxsOk(rules, utxo, block, height)
    ensures Rebuilding(utxo, block.txs, 0, height, map[], {}, d)
    ensures InRange(Pending(block.txs, |block.txs|, height))
  {
    assert utxo - {} == utxo;
    PendingInRange(rules, utxo, block.txs, |block.txs|, height, block.header.time);
    hide TxsOk, InRange;
  }

  lemma RebuildStep(
      utxo: UtxoSet, txs: seq<Tx>, n: nat, height: int, pending: UtxoSet, all: set<OutPoint>, gone: set<OutPoint>, d: Disk, d': Disk)
    requires n < |txs| && Rebuilding(utxo, txs, n, height, pending, all, d)
    requires d' == d.(utxo := d.utxo - gone)
    requires gone <= InKeys(txs[n].ins, |txs[n].ins|) <= gone + pending.Keys
    ensures Rebuilding(utxo, txs, n + 1, height,
              (pending - InKeys(txs[n].ins, |txs[n].ins|)) + Created(txs[n], height, n == 0), all + gone, d')
  {
    var keys := InKeys(txs[n].ins, |txs[n].ins|);
    assert (utxo - all) - gone == utxo - (all + gone);
    if n == 0 {
      assert keys == {NULL_KEY};
      assert pending - keys == map[];
    } else {
      assert Spent(txs[n], false) == keys;
      assert keys <= gone + keys * pending.Keys;
    }
  }

  lemma RebuildDone(rules: TxRules, utxo: UtxoSet, block: Block, height: nat, pending: UtxoSet, gone: set<OutPoint>, d: Disk)
    requires BlockTxsOk(rules, utxo, block, height) && Sane(utxo) && Fresh(utxo, block.txs)
    requires Rebuilding(utxo, block.txs, |block.txs|, height, pending, gone, d)
    ensures pending == Pending(block.txs, |block.txs|, height)
    ensures d.utxo + pending == ApplyBlock(utxo, block, height)
  {
    var txs, n := block.txs, |block.txs|;
    ViewIsSequential(utxo, txs, n, height);
    PendingKeys(txs, n, height);
    ConsumedIsSeen(txs, n, height);
    assert NULL_KEY !in utxo by {
      assert NULL_KEY in utxo ==> EntrySane(NULL_KEY, utxo[NULL_KEY]);
    }
    SameDrop(utxo, gone, Seen(txs, n), Consumed(txs, n, height), NULL_KEY);
    hide Seen, Consumed, Pending, BlockTxsOk, Sane, ApplyTxs;
  }

  lemma SameDrop(utxo: UtxoSet, gone: set<OutPoint>, seen: set<OutPoint>, consumed: set<OutPoint>, k: OutPoint)
    requires gone <= seen + {k} && seen <= gone + consumed && k !in utxo && consumed !! utxo.Keys
    ensures utxo - gone == utxo - seen
  {
  }

  /** The first j inputs left the pending map or else the disk. */
  ghost predicate Taken(d0: Disk, pending: UtxoSet, ins: seq<TxIn>, j: nat, rest: UtxoSet, gone: set<OutPoint>, d: Disk)
    requires j <= |ins|
  {
    && rest == pending - InKeys(ins, j)
    && d == d0.(utxo := d0.utxo - gone)
    && gone <= InKeys(ins, j) <= gone + pending.Keys
  }

  lemma TakenAll(d0: Disk, pending: UtxoSet, ins: seq<TxIn>, j: nat, rest: UtxoSet, gone: set<OutPoint>, d: Disk)
    requires j <= |ins| && Taken(d0, pending, ins, j, rest, gone, d)
    ensures rest == pending - InKeys(ins, j)
    ensures d == d0.(utxo := d0.utxo - gone)
    ensures gone <= InKeys(ins, j) <= gone + pending.Keys
  {
    hide InKeys;
  }

  lemma TakenNone(d: Disk, pending: UtxoSet, ins: seq<TxIn>)
    ensures Taken(d, pending, ins, 0, pending, {}, d)
  {
    assert pending - {} == pending && d.utxo - {} == d.utxo && InKeys(ins, 0) == {};
  }

  lemma TakenNext(d0: Disk, pending: UtxoSet, ins: seq<TxIn>, j: nat, rest: UtxoSet, gone: set<OutPoint>, d: Disk)
    requires j < |ins| && Taken(d0, pending, ins, j, rest, gone, d)
    ensures var key := ins[j].prev;
      if key in rest then Taken(d0, pending, ins, j + 1, rest - {key}, gone, d)
      else Taken(d0, pending, ins, j + 1, rest, gone + {key}, Apply(d, RemoveUtxo(key)))
  {
    var key := ins[j].prev;
    InKeysStep(ins, j);
    DropAlso(pending, InKeys(ins, j), key);
    DropAlso(d0.utxo, gone, key);
    hide InKeys;
  }

  lemma DropAlso<K, V>(m: map<K, V>, keys: set<K>, k: K)
    ensures (m - keys) - {k} == m - (keys + {k})
    ensures k !in m - keys ==> m - (keys + {k}) == m - keys
  {
  }

  lemma FlushStep(utxo: UtxoSet, pending: UtxoSet, todo: set<OutPoint>, k: OutPoint)
    requires InRange(pending) && k in todo && todo <= pending.Keys
    ensures (utxo + (pending - todo))[pending[k].key := pending[k]] == utxo + (pending - (todo - {k}))
  {
  }
}
