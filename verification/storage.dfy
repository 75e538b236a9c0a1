/** The journaled store.  The disk is a set of files; each file write or removal is one atomic
  step.  Every operation is given by the list of its writes, so a crash is a prefix of a list.
*/
module Storage {
  import opened Wire
  import opened Ledger
  import opened Batch
  import opened ChainPath

  datatype UndoData = UndoData(addedKeys: seq<OutPoint>, spent: seq<Entry>)

  datatype Journal =
    | Connecting(index: BlockIndex, adds: seq<Entry>, spends: seq<OutPoint>, spentEntries: seq<Entry>)
    | Disconnecting(hash: Hash, prevTip: BlockIndex, undo: UndoData)

  datatype Disk = Disk(
    tip: Option<BlockIndex>,
    journal: Option<Journal>,
    blocks: map<Hash, Block>,
    hashIndex: map<Hash, BlockIndex>,
    heightIndex: map<int, BlockIndex>,
    utxo: UtxoSet,
    undo: map<Hash, UndoData>)

  datatype Write =
    | WriteJournal(journal: Journal) | ClearJournal
    | WriteBlock(hash: Hash, block: Block) | RemoveBlock(hash: Hash)
    | WriteHashIndex(hash: Hash, index: BlockIndex) | RemoveHashIndex(hash: Hash)
    | WriteHeightIndex(height: int, index: BlockIndex) | RemoveHeightIndex(height: int)
    | WriteUndo(hash: Hash, undo: UndoData) | RemoveUndo(hash: Hash)
    | WriteUtxo(entry: Entry) | RemoveUtxo(key: OutPoint)
    | WriteTip(index: BlockIndex)
    | RemoveAllUtxo

  function Apply(d: Disk, w: Write): Disk {
    match w
    case WriteJournal(j) => d.(journal := Some(j))
    case ClearJournal => d.(journal := None)
    case WriteBlock(h, b) => d.(blocks := d.blocks[h := b])
    case RemoveBlock(h) => d.(blocks := d.blocks - {h})
    case WriteHashIndex(h, i) => d.(hashIndex := d.hashIndex[h := i])
    case RemoveHashIndex(h) => d.(hashIndex := d.hashIndex - {h})
    case WriteHeightIndex(n, i) => d.(heightIndex := d.heightIndex[n := i])
    case RemoveHeightIndex(n) => d.(heightIndex := d.heightIndex - {n})
    case WriteUndo(h, u) => d.(undo := d.undo[h := u])
    case RemoveUndo(h) => d.(undo := d.undo - {h})
    case WriteUtxo(e) => d.(utxo := d.utxo[e.key := e])
    case RemoveUtxo(k) => d.(utxo := d.utxo - {k})
    case WriteTip(i) => d.(tip := Some(i))
    case RemoveAllUtxo => d.(utxo := map[])
  }

  function ApplyAll(d: Disk, ws: seq<Write>): Disk {
    if |ws| == 0 then d else Apply(ApplyAll(d, ws[..|ws| - 1]), ws[|ws| - 1])
  }

  lemma {:induction false} ApplyConcat(d: Disk, a: seq<Write>, b: seq<Write>)
    ensures ApplyAll(d, a + b) == ApplyAll(ApplyAll(d, a), b)
  {
    if |b| == 0 {
      assert a + b == a;
    } else {
      ApplyConcat(d, a, b[..|b| - 1]);
      assert (a + b)[..|a + b| - 1] == a + b[..|b| - 1];
      hide Apply;
    }
  }

  // ----- The writes of each operation -----

  function Removals(keys: seq<OutPoint>): seq<Write> {
    seq(|keys|, i requires 0 <= i < |keys| => RemoveUtxo(keys[i]))
  }

  function Puts(es: seq<Entry>): seq<Write> {
    seq(|es|, i requires 0 <= i < |es| => WriteUtxo(es[i]))
  }

  function AddedKeys(es: seq<Entry>): seq<OutPoint> {
    seq(|es|, i requires 0 <= i < |es| => es[i].key)
  }

  function UndoOf(d: Diff): UndoData {
    UndoData(AddedKeys(d.adds), d.spent)
  }

  function JournalOf(idx: BlockIndex, d: Diff): Journal {
    Connecting(idx, d.adds, d.spends, d.spent)
  }

  function SaveData(block: Block, idx: BlockIndex, d: Diff): seq<Write> {
    [WriteBlock(idx.hash, block), WriteHashIndex(idx.hash, idx), WriteHeightIndex(idx.height, idx)]
    + Removals(d.spends) + Puts(d.adds) + [WriteUndo(idx.hash, UndoOf(d))]
  }

  function SaveWrites(block: Block, idx: BlockIndex, d: Diff): seq<Write> {
    [WriteJournal(JournalOf(idx, d))] + SaveData(block, idx, d) + [WriteTip(idx), ClearJournal]
  }

  function DisconnectData(prevTip: BlockIndex, undo: UndoData): seq<Write> {
    Removals(undo.addedKeys) + Puts(undo.spent) + [RemoveHeightIndex(prevTip.height + 1), WriteTip(prevTip)]
  }

  function DisconnectWrites(hash: Hash, prevTip: BlockIndex, undo: UndoData): seq<Write> {
    [WriteJournal(Disconnecting(hash, prevTip, undo))] + DisconnectData(prevTip, undo) + [ClearJournal]
  }

  function RollbackData(idx: BlockIndex, adds: seq<Entry>, spent: seq<Entry>): seq<Write> {
    Removals(AddedKeys(adds)) + Puts(spent)
    + [RemoveBlock(idx.hash), RemoveHashIndex(idx.hash), RemoveHeightIndex(idx.height), RemoveUndo(idx.hash)]
  }

  predicate Committed(d: Disk, idx: BlockIndex) {
    d.tip.Some? && d.tip.value.hash == idx.hash
  }

  /** Recovery undoes an uncommitted connect and redoes a disconnect. */
  function RecoverWrites(d: Disk): seq<Write> {
    match d.journal
    case None => []
    case Some(Connecting(idx, adds, spends, spent)) =>
      if Committed(d, idx) then [ClearJournal] else RollbackData(idx, adds, spent) + [ClearJournal]
    case Some(Disconnecting(hash, prevTip, undo)) =>
      DisconnectData(prevTip, undo) + [ClearJournal]
  }

  function Recovered(d: Disk): Disk {
    ApplyAll(d, RecoverWrites(d))
  }

  // ----- What the operations do -----

  lemma {:induction false} ApplyRemovals(d: Disk, keys: seq<OutPoint>)
    ensures ApplyAll(d, Removals(keys)) == d.(utxo := d.utxo - SetOf(keys))
  {
    if |keys| == 0 {
      assert d.utxo - SetOf(keys) == d.utxo;
    } else {
      var front, last := keys[..|keys| - 1], keys[|keys| - 1];
      ApplyRemovals(d, front);
      assert Removals(keys)[..|keys| - 1] == Removals(front);
      assert keys == front + [last];
      SetOfStep(front, last);
      assert (d.utxo - SetOf(front)) - {last} == d.utxo - SetOf(keys);
    }
  }

  lemma {:induction false} ApplyPuts(d: Disk, es: seq<Entry>)
    ensures ApplyAll(d, Puts(es)) == d.(utxo := WriteAll(d.utxo, es))
  {
    if |es| > 0 {
      ApplyPuts(d, es[..|es| - 1]);
      assert Puts(es)[..|es| - 1] == Puts(es[..|es| - 1]);
    }
  }

  lemma ApplyRemovePut(d: Disk, keys: seq<OutPoint>, es: seq<Entry>)
    ensures ApplyAll(d, Removals(keys) + Puts(es)) == d.(utxo := WriteAll(d.utxo - SetOf(keys), es))
  {
    ApplyConcat(d, Removals(keys), Puts(es));
    ApplyRemovals(d, keys);
    ApplyPuts(ApplyAll(d, Removals(keys)), es);
  }

  function Saved(d: Disk, block: Block, idx: BlockIndex, diff: Diff): Disk {
    Disk(Some(idx), None, d.blocks[idx.hash := block], d.hashIndex[idx.hash := idx],
         d.heightIndex[idx.height := idx], Commit(d.utxo, diff), d.undo[idx.hash := UndoOf(diff)])
  }

  /** The utxo map after the undo records of a block are applied. */
  function Undone(utxo: UtxoSet, undo: UndoData): UtxoSet {
    WriteAll(utxo - SetOf(undo.addedKeys), undo.spent)
  }

  function Disconnected(d: Disk, prevTip: BlockIndex, undo: UndoData): Disk {
    d.(tip := Some(prevTip), journal := None, heightIndex := d.heightIndex - {prevTip.height + 1},
       utxo := Undone(d.utxo, undo))
  }

  lemma ApplyOne(d: Disk, w: Write)
    ensures ApplyAll(d, [w]) == Apply(d, w)
  {
    assert ApplyAll(d, []) == d && [w][..0] == [];
  }

  lemma ApplySnoc(d: Disk, ws: seq<Write>, w: Write)
    ensures ApplyAll(d, ws + [w]) == Apply(ApplyAll(d, ws), w)
  {
    assert (ws + [w])[..|ws|] == ws;
  }

  lemma ApplySaveData(d: Disk, block: Block, idx: BlockIndex, diff: Diff)
    ensures ApplyAll(d, SaveData(block, idx, diff)) == Saved(d, block, idx, diff).(tip := d.tip, journal := d.journal)
  {
    hide *;
    var a, b, c := WriteBlock(idx.hash, block), WriteHashIndex(idx.hash, idx), WriteHeightIndex(idx.height, idx);
    ApplyOne(d, a);
    ApplySnoc(d, [a], b);
    ApplySnoc(d, [a] + [b], c);
    var head, body := [a] + [b] + [c], Removals(diff.spends) + Puts(diff.adds);
    ApplyConcat(d, head, body);
    ApplyRemovePut(ApplyAll(d, head), diff.spends, diff.adds);
    ApplySnoc(d, head + body, WriteUndo(idx.hash, UndoOf(diff)));
    SaveDataIs(block, idx, diff);
    SavedIs(d, ApplyAll(d, head + body), block, idx, diff);
  }

  lemma SaveDataIs(block: Block, idx: BlockIndex, diff: Diff)
    ensures SaveData(block, idx, diff)
         == [WriteBlock(idx.hash, block)] + [WriteHashIndex(idx.hash, idx)] + [WriteHeightIndex(idx.height, idx)]
            + (Removals(diff.spends) + Puts(diff.adds)) + [WriteUndo(idx.hash, UndoOf(diff))]
  {
    hide Removals, Puts, UndoOf;
  }

  lemma SavedIs(d: Disk, d': Disk, block: Block, idx: BlockIndex, diff: Diff)
    requires var d1 := Apply(Apply(Apply(d, WriteBlock(idx.hash, block)), WriteHashIndex(idx.hash, idx)), WriteHeightIndex(idx.height, idx));
      d' == d1.(utxo := WriteAll(d1.utxo - SetOf(diff.spends), diff.adds))
    ensures Apply(d', WriteUndo(idx.hash, UndoOf(diff))) == Saved(d, block, idx, diff).(tip := d.tip, journal := d.journal)
  {
    hide WriteAll, SetOf, UndoOf;
  }

  lemma ApplySave(d: Disk, block: Block, idx: BlockIndex, diff: Diff)
    ensures ApplyAll(d, SaveWrites(block, idx, diff)) == Saved(d, block, idx, diff)
  {
    var w, data := WriteJournal(JournalOf(idx, diff)), SaveData(block, idx, diff);
    ApplyOne(d, w);
    ApplyConcat(d, [w], data);
    ApplySaveData(Apply(d, w), block, idx, diff);
    ApplySnoc(d, [w] + data, WriteTip(idx));
    ApplySnoc(d, [w] + data + [WriteTip(idx)], ClearJournal);
    assert SaveWrites(block, idx, diff) == [w] + data + [WriteTip(idx)] + [ClearJournal];
  }

  lemma ApplyDisconnectData(d: Disk, prevTip: BlockIndex, undo: UndoData)
    ensures ApplyAll(d, DisconnectData(prevTip, undo)) == Disconnected(d, prevTip, undo).(journal := d.journal)
  {
    hide *;
    var body, w, t := Removals(undo.addedKeys) + Puts(undo.spent), RemoveHeightIndex(prevTip.height + 1), WriteTip(prevTip);
    ApplyRemovePut(d, undo.addedKeys, undo.spent);
    ApplySnoc(d, body, w);
    ApplySnoc(d, body + [w], t);
    DisconnectDataIs(prevTip, undo);
    DisconnectedIs(d, ApplyAll(d, body), prevTip, undo);
  }

  lemma DisconnectedIs(d: Disk, d': Disk, prevTip: BlockIndex, undo: UndoData)
    requires d' == d.(utxo := WriteAll(d.utxo - SetOf(undo.addedKeys), undo.spent))
    ensures Apply(Apply(d', RemoveHeightIndex(prevTip.height + 1)), WriteTip(prevTip))
         == Disconnected(d, prevTip, undo).(journal := d.journal)
  {
    hide WriteAll, SetOf;
  }

  lemma DisconnectDataIs(prevTip: BlockIndex, undo: UndoData)
    ensures DisconnectData(prevTip, undo)
         == Removals(undo.addedKeys) + Puts(undo.spent) + [RemoveHeightIndex(prevTip.height + 1)] + [WriteTip(prevTip)]
  {
    hide Removals, Puts;
  }

  lemma ApplyDisconnect(d: Disk, hash: Hash, prevTip: BlockIndex, undo: UndoData)
    ensures ApplyAll(d, DisconnectWrites(hash, prevTip, undo)) == Disconnected(d, prevTip, undo)
  {
    var w, data := WriteJournal(Disconnecting(hash, prevTip, undo)), DisconnectData(prevTip, undo);
    ApplyOne(d, w);
    ApplyConcat(d, [w], data);
    ApplyDisconnectData(Apply(d, w), prevTip, undo);
    ApplySnoc(d, [w] + data, ClearJournal);
    assert DisconnectWrites(hash, prevTip, undo) == [w] + data + [ClearJournal];
  }

  lemma ApplyRollback(d: Disk, idx: BlockIndex, adds: seq<Entry>, spent: seq<Entry>)
    ensures ApplyAll(d, RollbackData(idx, adds, spent))
         == d.(utxo := WriteAll(d.utxo - KeysOf(adds), spent), blocks := d.blocks - {idx.hash},
               hashIndex := d.hashIndex - {idx.hash}, heightIndex := d.heightIndex - {idx.height},
               undo := d.undo - {idx.hash})
  {
    var body := Removals(AddedKeys(adds)) + Puts(spent);
    var a, b, c, e := RemoveBlock(idx.hash), RemoveHashIndex(idx.hash), RemoveHeightIndex(idx.height), RemoveUndo(idx.hash);
    ApplyRemovePut(d, AddedKeys(adds), spent);
    AddedKeysSet(adds);
    ApplySnoc(d, body, a);
    ApplySnoc(d, body + [a], b);
    ApplySnoc(d, body + [a] + [b], c);
    ApplySnoc(d, body + [a] + [b] + [c], e);
    assert RollbackData(idx, adds, spent) == body + [a] + [b] + [c] + [e];
  }

  lemma AddedKeysSet(es: seq<Entry>)
    ensures SetOf(AddedKeys(es)) == KeysOf(es)
  {
    assert forall i :: 0 <= i < |es| ==> AddedKeys(es)[i] == es[i].key;
  }

  // ----- Crashes -----

  function Prefix(ws: seq<Write>, n: nat): seq<Write> {
    if n < |ws| then ws[..n] else ws
  }

  /** Recovery starts over after each crash; `cuts` says how many writes each attempt got to. */
  function Crashes(d: Disk, cuts: seq<nat>): Disk
    decreases cuts
  {
    if |cuts| == 0 then d else Crashes(ApplyAll(d, Prefix(RecoverWrites(d), cuts[0])), cuts[1..])
  }

  /** The files an operation on one block may touch. */
  datatype Scope = Scope(keys: set<OutPoint>, hash: Hash, height: int)

  predicate Within(s: Scope, w: Write) {
    match w
    case WriteBlock(h, _) => h == s.hash
    case RemoveBlock(h) => h == s.hash
    case WriteHashIndex(h, _) => h == s.hash
    case RemoveHashIndex(h) => h == s.hash
    case WriteHeightIndex(n, _) => n == s.height
    case RemoveHeightIndex(n) => n == s.height
    case WriteUndo(h, _) => h == s.hash
    case RemoveUndo(h) => h == s.hash
    case WriteUtxo(e) => e.key in s.keys
    case RemoveUtxo(k) => k in s.keys
    case _ => false
  }

  /** The two disks agree on every file outside the scope, journal and tip apart. */
  ghost predicate SameOutside(s: Scope, d: Disk, d': Disk) {
    && d'.utxo - s.keys == d.utxo - s.keys
    && d'.heightIndex - {s.height} == d.heightIndex - {s.height}
    && d'.blocks - {s.hash} == d.blocks - {s.hash}
    && d'.hashIndex - {s.hash} == d.hashIndex - {s.hash}
    && d'.undo - {s.hash} == d.undo - {s.hash}
  }

  lemma DropPut<K, V>(m: map<K, V>, keys: set<K>, k: K, v: V)
    requires k in keys
    ensures m[k := v] - keys == m - keys
    ensures (m - {k}) - keys == m - keys
  {
  }

  lemma WithinStep(s: Scope, d: Disk, w: Write)
    requires Within(s, w)
    ensures SameOutside(s, d, Apply(d, w)) && Apply(d, w).tip == d.tip && Apply(d, w).journal == d.journal
  {
    match w
    case WriteBlock(h, b) => DropPut(d.blocks, {s.hash}, h, b);
    case WriteHashIndex(h, i) => DropPut(d.hashIndex, {s.hash}, h, i);
    case WriteHeightIndex(n, i) => DropPut(d.heightIndex, {s.height}, n, i);
    case WriteUndo(h, u) => DropPut(d.undo, {s.hash}, h, u);
    case WriteUtxo(e) => DropPut(d.utxo, s.keys, e.key, e);
    case RemoveUtxo(k) =>
      assert (d.utxo - {k}) - s.keys == d.utxo - s.keys;
    case _ =>
  }

  lemma {:induction false} WithinAll(s: Scope, d: Disk, ws: seq<Write>)
    requires forall i :: 0 <= i < |ws| ==> Within(s, ws[i])
    ensures var d' := ApplyAll(d, ws); SameOutside(s, d, d') && d'.tip == d.tip && d'.journal == d.journal
  {
    if |ws| > 0 {
      WithinAll(s, d, ws[..|ws| - 1]);
      WithinStep(s, ApplyAll(d, ws[..|ws| - 1]), ws[|ws| - 1]);
    }
  }

  function ConnectScope(idx: BlockIndex, d: Diff): Scope {
    Scope(KeysOf(d.adds) + SetOf(d.spends) + KeysOf(d.spent), idx.hash, idx.height)
  }

  lemma SaveWithin(block: Block, idx: BlockIndex, d: Diff)
    ensures forall i :: 0 <= i < |SaveData(block, idx, d)| ==> Within(ConnectScope(idx, d), SaveData(block, idx, d)[i])
  {
    assert forall i :: 0 <= i < |d.spends| ==> d.spends[i] in SetOf(d.spends);
    assert forall i :: 0 <= i < |d.adds| ==> d.adds[i].key in KeysOf(d.adds);
  }

  lemma RollbackWithin(idx: BlockIndex, d: Diff)
    ensures var ws := RollbackData(idx, d.adds, d.spent); forall i :: 0 <= i < |ws| ==> Within(ConnectScope(idx, d), ws[i])
  {
    assert forall i :: 0 <= i < |d.adds| ==> AddedKeys(d.adds)[i] in KeysOf(d.adds);
    assert forall i :: 0 <= i < |d.spent| ==> d.spent[i].key in KeysOf(d.spent);
  }

  /** A crash left an uncommitted connect: its journal, the old tip, and only its own files changed. */
  ghost predicate Interrupted(d0: Disk, idx: BlockIndex, diff: Diff, d: Disk) {
    && d.journal == Some(JournalOf(idx, diff))
    && d.tip == d0.tip
    && SameOutside(ConnectScope(idx, diff), d0, d)
  }

  /** The tip, the unspent set and the height index are as in `d`, no journal is left, and no
    other block's files changed. */
  ghost predicate RolledBack(d0: Disk, idx: BlockIndex, diff: Diff, d: Disk) {
    && d.journal == None
    && d.tip == d0.tip
    && d.heightIndex == d0.heightIndex
    && d.utxo == WriteAll(d0.utxo - KeysOf(diff.adds), diff.spent)
    && d.blocks == d0.blocks - {idx.hash}
    && d.hashIndex == d0.hashIndex - {idx.hash}
    && d.undo == d0.undo - {idx.hash}
  }

  /** What the operation was handed: entries of the old set under the spent keys, and a block
    that is not the tip and whose height is not indexed yet. */
  ghost predicate Connectable(d: Disk, idx: BlockIndex, diff: Diff) {
    && d.journal == None
    && !Committed(d, idx)
    && idx.height !in d.heightIndex
    && KeysOf(diff.spent) == SetOf(diff.spends)
    && forall i :: 0 <= i < |diff.spent| ==> diff.spent[i].key in d.utxo && d.utxo[diff.spent[i].key] == diff.spent[i]
  }

  lemma InterruptedPrefix(d0: Disk, block: Block, idx: BlockIndex, diff: Diff, k: nat)
    requires Connectable(d0, idx, diff) && 0 < k < |SaveWrites(block, idx, diff)| - 1
    ensures Interrupted(d0, idx, diff, ApplyAll(d0, SaveWrites(block, idx, diff)[..k]))
  {
    var w, data := WriteJournal(JournalOf(idx, diff)), SaveData(block, idx, diff);
    assert SaveWrites(block, idx, diff)[..k] == [w] + data[..k - 1];
    ApplyOne(d0, w);
    ApplyConcat(d0, [w], data[..k - 1]);
    SaveWithin(block, idx, diff);
    WithinAll(ConnectScope(idx, diff), Apply(d0, w), data[..k - 1]);
    hide ApplyAll, SaveData, Within;
  }

  /** Writing the spent entries back over a set that agrees outside the scope gives one result. */
  lemma RestoredUtxo(u0: UtxoSet, u: UtxoSet, diff: Diff)
    requires KeysOf(diff.spent) == SetOf(diff.spends)
    requires forall i :: 0 <= i < |diff.spent| ==> diff.spent[i].key in u0 && u0[diff.spent[i].key] == diff.spent[i]
    requires u - (KeysOf(diff.adds) + KeysOf(diff.spent)) == u0 - (KeysOf(diff.adds) + KeysOf(diff.spent))
    ensures WriteAll(u - KeysOf(diff.adds), diff.spent) == WriteAll(u0 - KeysOf(diff.adds), diff.spent)
    ensures WriteAll(u0 - KeysOf(diff.adds), diff.spent) == u0
       <==> (forall k :: k in KeysOf(diff.adds) && k in u0 ==> k in SetOf(diff.spends))
  {
    var a, s := KeysOf(diff.adds), KeysOf(diff.spent);
    WriteAllAdds(u - a, diff.spent, u0);
    WriteAllAdds(u0 - a, diff.spent, u0);
    var x, y := WriteAll(u - a, diff.spent), WriteAll(u0 - a, diff.spent);
    RestoredMaps(u0, u, a, s, x, y);
  }

  lemma RestoredMaps(u0: UtxoSet, u: UtxoSet, a: set<OutPoint>, s: set<OutPoint>, x: UtxoSet, y: UtxoSet)
    requires s <= u0.Keys && u - (a + s) == u0 - (a + s)
    requires x.Keys == (u - a).Keys + s && forall k :: k in x ==> if k in s then x[k] == u0[k] else x[k] == u[k]
    requires y.Keys == (u0 - a).Keys + s && forall k :: k in y ==> y[k] == u0[k]
    ensures x == y
    ensures y == u0 <==> (forall k :: k in a && k in u0 ==> k in s)
  {
    assert forall k :: k in (u - (a + s)).Keys <==> k in (u0 - (a + s)).Keys;
    assert forall k :: k in u - (a + s) ==> (u - (a + s))[k] == u[k] && (u0 - (a + s))[k] == u0[k];
    if k :| k in a && k in u0 && k !in s {
      assert k !in y;
    }
  }

  lemma DropSame<K, V>(m: map<K, V>, m': map<K, V>, k: K)
    requires m - {k} == m' - {k} && k !in m
    ensures m' - {k} == m
  {
    assert m - {k} == m;
  }

  /** One recovery attempt that is not cut short finishes the rollback. */
  lemma RollbackFinishes(d0: Disk, idx: BlockIndex, diff: Diff, d: Disk)
    requires Connectable(d0, idx, diff) && Interrupted(d0, idx, diff, d)
    ensures RolledBack(d0, idx, diff, Recovered(d))
  {
    var data := RollbackData(idx, diff.adds, diff.spent);
    assert RecoverWrites(d) == data + [ClearJournal];
    ApplySnoc(d, data, ClearJournal);
    ApplyRollback(d, idx, diff.adds, diff.spent);
    RestoredUtxo(d0.utxo, d.utxo, diff) by {
      assert KeysOf(diff.adds) + SetOf(diff.spends) + KeysOf(diff.spent) == KeysOf(diff.adds) + KeysOf(diff.spent);
    }
    DropSame(d0.heightIndex, d.heightIndex, idx.height);
    hide ApplyAll, RollbackData, WriteAll, KeysOf, SetOf;
  }

  lemma RollbackAttempt(d0: Disk, idx: BlockIndex, diff: Diff, d: Disk, n: nat)
    requires Connectable(d0, idx, diff) && Interrupted(d0, idx, diff, d)
    ensures var d' := ApplyAll(d, Prefix(RecoverWrites(d), n));
      Interrupted(d0, idx, diff, d') || RolledBack(d0, idx, diff, d')
  {
    var data := RollbackData(idx, diff.adds, diff.spent);
    assert RecoverWrites(d) == data + [ClearJournal];
    if n <= |data| {
      assert Prefix(RecoverWrites(d), n) == data[..n];
      RollbackWithin(idx, diff);
      WithinAll(ConnectScope(idx, diff), d, data[..n]);
    } else {
      RollbackFinishes(d0, idx, diff, d);
    }
    hide ApplyAll, RollbackData, Within, RolledBack;
  }

  lemma {:induction false} RollbackCrashes(d0: Disk, idx: BlockIndex, diff: Diff, d: Disk, cuts: seq<nat>)
    requires Connectable(d0, idx, diff)
    requires Interrupted(d0, idx, diff, d) || RolledBack(d0, idx, diff, d)
    ensures RolledBack(d0, idx, diff, Recovered(Crashes(d, cuts)))
    decreases cuts
  {
    hide Interrupted, Connectable;
    if |cuts| == 0 {
      if Interrupted(d0, idx, diff, d) {
        RollbackFinishes(d0, idx, diff, d);
      }
    } else {
      if Interrupted(d0, idx, diff, d) {
        RollbackAttempt(d0, idx, diff, d, cuts[0]);
      }
      RollbackCrashes(d0, idx, diff, ApplyAll(d, Prefix(RecoverWrites(d), cuts[0])), cuts[1..]);
    }
  }

  /** A committed connect only has its journal left to clear. */
  lemma {:induction false} CommittedCrashes(d: Disk, cuts: seq<nat>)
    requires d.journal.None? || (d.journal.value.Connecting? && Committed(d, d.journal.value.index))
    ensures Recovered(Crashes(d, cuts)) == d.(journal := None)
    decreases cuts
  {
    ApplyOne(d, ClearJournal);
    assert ApplyAll(d, []) == d;
    if |cuts| > 0 {
      assert Prefix(RecoverWrites(d), cuts[0]) == [] || Prefix(RecoverWrites(d), cuts[0]) == RecoverWrites(d);
      CommittedCrashes(ApplyAll(d, Prefix(RecoverWrites(d), cuts[0])), cuts[1..]);
    }
  }

  /** Crash atomicity of connect: cut SaveBlock after any k writes, then cut any number of
    recoveries anywhere.  Recovery ends in the finished connect when the tip had been written,
    untouched when nothing had, and rolled back otherwise. */
  lemma ConnectCrash(d0: Disk, block: Block, idx: BlockIndex, diff: Diff, k: nat, cuts: seq<nat>)
    requires Connectable(d0, idx, diff) && k <= |SaveWrites(block, idx, diff)|
    ensures var ws := SaveWrites(block, idx, diff);
      var d := Recovered(Crashes(ApplyAll(d0, ws[..k]), cuts));
      && (k == 0 ==> d == d0)
      && (0 < k < |ws| - 1 ==> RolledBack(d0, idx, diff, d))
      && (|ws| - 1 <= k ==> d == Saved(d0, block, idx, diff))
  {
    var ws := SaveWrites(block, idx, diff);
    if k == 0 {
      assert ws[..0] == [] && ApplyAll(d0, []) == d0;
      CommittedCrashes(d0, cuts);
    } else if k < |ws| - 1 {
      InterruptedPrefix(d0, block, idx, diff, k);
      RollbackCrashes(d0, idx, diff, ApplyAll(d0, ws[..k]), cuts);
    } else {
      CommittedPrefix(d0, block, idx, diff, k);
      CommittedCrashes(ApplyAll(d0, ws[..k]), cuts);
    }
    hide SaveWrites, ApplyAll, Crashes, RecoverWrites, RolledBack;
  }

  lemma CommittedPrefix(d0: Disk, block: Block, idx: BlockIndex, diff: Diff, k: nat)
    requires |SaveWrites(block, idx, diff)| - 1 <= k <= |SaveWrites(block, idx, diff)|
    ensures var ws := SaveWrites(block, idx, diff);
      ApplyAll(d0, ws[..k]) == Saved(d0, block, idx, diff).(journal := if k == |ws| then None else Some(JournalOf(idx, diff)))
  {
    var ws, w, data := SaveWrites(block, idx, diff), WriteJournal(JournalOf(idx, diff)), SaveData(block, idx, diff);
    if k == |ws| {
      assert ws[..k] == ws;
      ApplySave(d0, block, idx, diff);
    } else {
      assert ws[..k] == [w] + data + [WriteTip(idx)];
      ApplyOne(d0, w);
      ApplyConcat(d0, [w], data);
      ApplySaveData(Apply(d0, w), block, idx, diff);
      ApplySnoc(d0, [w] + data, WriteTip(idx));
    }
    hide ApplyAll, SaveData, Commit, UndoOf;
  }

  /** The rollback restores the unspent set exactly when every key the block adds was absent
    before or is one it spends: the condition under which undo is the inverse of connect. */
  lemma ConnectCrashAtomic(d0: Disk, block: Block, idx: BlockIndex, diff: Diff, k: nat, cuts: seq<nat>)
    requires Connectable(d0, idx, diff) && 0 < k < |SaveWrites(block, idx, diff)| - 1
    ensures var d := Recovered(Crashes(ApplyAll(d0, SaveWrites(block, idx, diff)[..k]), cuts));
      && d.tip == d0.tip && d.heightIndex == d0.heightIndex
      && (d.utxo == d0.utxo
          <==> forall x :: x in KeysOf(diff.adds) && x in d0.utxo ==> x in SetOf(diff.spends))
  {
    ConnectCrash(d0, block, idx, diff, k, cuts);
    RestoredUtxo(d0.utxo, d0.utxo, diff);
    hide SaveWrites, ApplyAll, Crashes, RecoverWrites, WriteAll, KeysOf, SetOf, Recovered;
  }

  // ----- Disconnect rolls forward -----

  /** Redoing is under way: nothing differs from `d0` but what the redo writes anyway. */
  ghost predicate Redoing(d0: Disk, hash: Hash, prevTip: BlockIndex, undo: UndoData, d: Disk) {
    && d.journal == Some(Disconnecting(hash, prevTip, undo))
    && (d.tip == d0.tip || d.tip == Some(prevTip))
    && d.blocks == d0.blocks && d.hashIndex == d0.hashIndex && d.undo == d0.undo
    && d.heightIndex - {prevTip.height + 1} == d0.heightIndex - {prevTip.height + 1}
    && d.utxo - (SetOf(undo.addedKeys) + KeysOf(undo.spent)) == d0.utxo - (SetOf(undo.addedKeys) + KeysOf(undo.spent))
  }

  lemma RedoStep(d0: Disk, hash: Hash, prevTip: BlockIndex, undo: UndoData, d: Disk, i: nat)
    requires Redoing(d0, hash, prevTip, undo, d) && i < |DisconnectData(prevTip, undo)|
    ensures Redoing(d0, hash, prevTip, undo, Apply(d, DisconnectData(prevTip, undo)[i]))
  {
    var keys := SetOf(undo.addedKeys) + KeysOf(undo.spent);
    var r, p := |undo.addedKeys|, |undo.spent|;
    DisconnectDataIs(prevTip, undo);
    if i < r {
      assert undo.addedKeys[i] in keys;
      assert (d.utxo - {undo.addedKeys[i]}) - keys == d.utxo - keys;
    } else if i < r + p {
      var e := undo.spent[i - r];
      assert e.key in KeysOf(undo.spent);
      DropPut(d.utxo, keys, e.key, e);
    } else if i == r + p {
      var n := prevTip.height + 1;
      assert (d.heightIndex - {n}) - {n} == d.heightIndex - {n};
    }
  }

  lemma {:induction false} RedoPrefix(d0: Disk, hash: Hash, prevTip: BlockIndex, undo: UndoData, d: Disk, n: nat)
    requires Redoing(d0, hash, prevTip, undo, d) && n <= |DisconnectData(prevTip, undo)|
    ensures Redoing(d0, hash, prevTip, undo, ApplyAll(d, DisconnectData(prevTip, undo)[..n]))
  {
    hide Redoing, DisconnectData;
    var ws := DisconnectData(prevTip, undo);
    if n > 0 {
      RedoPrefix(d0, hash, prevTip, undo, d, n - 1);
      RedoStep(d0, hash, prevTip, undo, ApplyAll(d, ws[..n - 1]), n - 1);
      assert ws[..n][..n - 1] == ws[..n - 1];
    } else {
      assert ws[..0] == [];
    }
  }

  /** Undo gives one result from any set that agrees outside the undo records' keys. */
  lemma UndoneAgrees(u0: UtxoSet, u: UtxoSet, undo: UndoData)
    requires u - (SetOf(undo.addedKeys) + KeysOf(undo.spent)) == u0 - (SetOf(undo.addedKeys) + KeysOf(undo.spent))
    ensures Undone(u, undo) == Undone(u0, undo)
  {
    var a, s := SetOf(undo.addedKeys), KeysOf(undo.spent);
    WriteAllMerge(u - a, undo.spent);
    WriteAllMerge(u0 - a, undo.spent);
    assert (u - a) - s == u - (a + s) && (u0 - a) - s == u0 - (a + s);
  }

  /** Writes replace only their own keys, and the result there does not depend on the rest. */
  lemma {:induction false} WriteAllMerge(u: UtxoSet, es: seq<Entry>)
    ensures WriteAll(u, es) == (u - KeysOf(es)) + WriteAll(map[], es)
  {
    if |es| > 0 {
      var front, last := es[..|es| - 1], es[|es| - 1];
      WriteAllMerge(u, front);
      assert es == front + [last];
      KeysOfStep(front, last);
      MergeStep(u, KeysOf(front), WriteAll(map[], front), last.key, last);
    } else {
      assert u - KeysOf(es) == u;
    }
  }

  lemma MergeStep<K, V>(u: map<K, V>, keys: set<K>, m: map<K, V>, k: K, v: V)
    ensures ((u - keys) + m)[k := v] == (u - (keys + {k})) + m[k := v]
  {
  }

  lemma RedoFinishes(d0: Disk, hash: Hash, prevTip: BlockIndex, undo: UndoData, d: Disk)
    requires Redoing(d0, hash, prevTip, undo, d)
    ensures Recovered(d) == Disconnected(d0, prevTip, undo)
  {
    var data := DisconnectData(prevTip, undo);
    assert RecoverWrites(d) == data + [ClearJournal];
    ApplySnoc(d, data, ClearJournal);
    ApplyDisconnectData(d, prevTip, undo);
    UndoneAgrees(d0.utxo, d.utxo, undo);
    hide ApplyAll, DisconnectData, Undone, SetOf, KeysOf;
  }

  lemma RedoAttempt(d0: Disk, hash: Hash, prevTip: BlockIndex, undo: UndoData, d: Disk, n: nat)
    requires Redoing(d0, hash, prevTip, undo, d)
    ensures var d' := ApplyAll(d, Prefix(RecoverWrites(d), n));
      Redoing(d0, hash, prevTip, undo, d') || d' == Disconnected(d0, prevTip, undo)
  {
    var data := DisconnectData(prevTip, undo);
    assert RecoverWrites(d) == data + [ClearJournal];
    if n <= |data| {
      assert Prefix(RecoverWrites(d), n) == data[..n];
      RedoPrefix(d0, hash, prevTip, undo, d, n);
    } else {
      RedoFinishes(d0, hash, prevTip, undo, d);
    }
    hide ApplyAll, DisconnectData, Redoing, Disconnected;
  }

  lemma {:induction false} RedoCrashes(d0: Disk, hash: Hash, prevTip: BlockIndex, undo: UndoData, d: Disk, cuts: seq<nat>)
    requires Redoing(d0, hash, prevTip, undo, d) || d == Disconnected(d0, prevTip, undo)
    ensures Recovered(Crashes(d, cuts)) == Disconnected(d0, prevTip, undo)
    decreases cuts
  {
    hide Redoing;
    if Redoing(d0, hash, prevTip, undo, d) {
      if |cuts| == 0 {
        RedoFinishes(d0, hash, prevTip, undo, d);
      } else {
        RedoAttempt(d0, hash, prevTip, undo, d, cuts[0]);
        RedoCrashes(d0, hash, prevTip, undo, ApplyAll(d, Prefix(RecoverWrites(d), cuts[0])), cuts[1..]);
      }
    } else {
      CommittedCrashes(d, cuts);
    }
  }

  /** Crash atomicity of disconnect: once the journal is written, recovery always finishes the
    disconnect; before, nothing has happened. */
  lemma DisconnectCrash(d0: Disk, hash: Hash, prevTip: BlockIndex, undo: UndoData, k: nat, cuts: seq<nat>)
    requires d0.journal == None && k <= |DisconnectWrites(hash, prevTip, undo)|
    ensures Recovered(Crashes(ApplyAll(d0, DisconnectWrites(hash, prevTip, undo)[..k]), cuts))
         == if k == 0 then d0 else Disconnected(d0, prevTip, undo)
  {
    var ws, w, data := DisconnectWrites(hash, prevTip, undo), WriteJournal(Disconnecting(hash, prevTip, undo)), DisconnectData(prevTip, undo);
    if k == 0 {
      assert ws[..0] == [] && ApplyAll(d0, []) == d0;
      CommittedCrashes(d0, cuts);
    } else {
      if k < |ws| {
        assert ws[..k] == [w] + data[..k - 1];
        ApplyOne(d0, w);
        ApplyConcat(d0, [w], data[..k - 1]);
        RedoPrefix(d0, hash, prevTip, undo, Apply(d0, w), k - 1);
      } else {
        assert ws[..k] == ws;
        ApplyDisconnect(d0, hash, prevTip, undo);
      }
      RedoCrashes(d0, hash, prevTip, undo, ApplyAll(d0, ws[..k]), cuts);
    }
    hide DisconnectData, DisconnectWrites, ApplyAll, Crashes, RecoverWrites;
  }
}
