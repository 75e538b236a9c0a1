/** Runs on which the unconditional form of a property fails, each on a valid chain and a block that
  validation accepts; the exact conditions are proved in the modules imported here. */
module Boundaries {
  import opened Wire
  import opened ChainCfg
  import opened Consensus
  import opened Ledger
  import opened Batch
  import opened Supply
  import opened Unique
  import opened ChainPath
  import opened Storage
  import opened Active
  import opened Store
  import opened Blockchain
  import opened Restart
  import opened EasyChain

  /** What the validator returns for a good block on the unspent set of a chain. */
  method DiffOf(path: seq<Block>, block: Block) returns (d: Diff)
    requires EasyPath(path) && BlockOk(EASY, path, block, NOW) && OnceSpent(block.txs, |block.txs|)
    ensures Exact(Replay(path), block.txs, |path|, d)
  {
    hide *;
    EasyParts(path);
    ValidPathFacts(EASY, path, NOW);
    SupplyBound(FREE, path);
    BlockOkTxs(path, block);
    var r := ValidateBlockTransactions(FREE, Replay(path), block, |path|);
    d := r.value;
  }

  lemma BlockOkTxs(path: seq<Block>, block: Block)
    requires BlockOk(EASY, path, block, NOW)
    ensures BlockTxsOk(FREE, Replay(path), block, |path|)
  {
    hide HeaderOk, BlockTxsOk, Replay, MerkleRoot;
  }

  // ----- Undo -----

  /** A block that repeats a coinbase which is still unspent: it is accepted, and disconnecting it
    does not bring the old entry back. */
  method UndoCanLose() returns (path: seq<Block>, block: Block, d: Diff)
    ensures ValidPath(EASY, path, NOW) && BlockOk(EASY, path, block, NOW)
    ensures Exact(Replay(path), block.txs, |path|, d) && Revert(Commit(Replay(path), d), d) != Replay(path)
  {
    hide *;
    var again := [RewardTx(0)];
    path := Mined([], 0);
    EmptyEasy();
    MinedOk([], 0);
    EasyParts(path);
    MinedLength([], 0);
    block := Next(path, again);
    MinedOk(path, 0);
    NextIs(path, again);
    OneReward(again, 0, |path|);
    d := DiffOf(path, block);
    RevertUndoesCommit(Replay(path), again, |path|, d);
    SpendsOf(Replay(path), again, |path|, d);
    assert KeyOf(RewardTx(0)) in Pending(again, |again|, |path|) && KeyOf(RewardTx(0)) in Replay(path);
  }

  lemma MinedLength(path: seq<Block>, tag: int)
    requires |path| < 500
    ensures |Mined(path, tag)| == |path| + 1
  {
  }

  /** The batch variables of a block with a coinbase only. */
  lemma OneReward(txs: seq<Tx>, tag: int, height: int)
    requires |txs| > 0 && txs[0] == RewardTx(tag)
    ensures Pending(txs, 1, height) == map[KeyOf(RewardTx(tag)) := OutEntry(RewardTx(tag), 0, height, true)]
    ensures Seen(txs, 1) == {} && Consumed(txs, 1, height) == {} && OnceSpent(txs, 1)
  {
    MadeByOne(RewardTx(tag), height, true);
    assert Pending(txs, 0, height) == map[] && Seen(txs, 0) == {} && Consumed(txs, 0, height) == {};
    assert Pending(txs, 1, height) == ApplyTx(map[], txs[0], height, true);
    assert Seen(txs, 1) == Seen(txs, 0) + Spent(txs[0], true);
    assert Consumed(txs, 1, height) == Consumed(txs, 0, height) + Spent(txs[0], true) * Pending(txs, 0, height).Keys;
  }

  lemma SpendsOf(utxo: UtxoSet, txs: seq<Tx>, height: int, d: Diff)
    requires Exact(utxo, txs, height, d)
    ensures SetOf(d.spends) == Seen(txs, |txs|) - Consumed(txs, |txs|, height)
  {
    hide Seen, Consumed, Pending, Lists, SetOf;
  }

  // ----- Batch against sequence -----

  /** Mines blocks with a fresh coinbase each, up to a height. */
  function Fill(path: seq<Block>, n: nat): seq<Block>
    requires n < 500
    decreases n - |path|
  {
    if |path| >= n then path else Fill(Mined(path, |path|), n)
  }

  ghost predicate SameAt(a: UtxoSet, b: UtxoSet, k: OutPoint) {
    (k in a <==> k in b) && (k in a ==> a[k] == b[k])
  }

  /** The example: a coinbase, its spender, and what spends that. */
  datatype Cast = Cast(c: Tx, t: Tx, t2: Tx)

  function Players(): (p: Cast) {
    Cast(RewardTx(0), Pay(RewardTx(0)), Pay(Pay(RewardTx(0))))
  }

  lemma PlayersAre()
    ensures var p := Players();
      && p.c == RewardTx(0) && p.t == Pay(p.c) && p.t2 == Pay(p.t)
      && p.t != p.c && p.t2 != p.t && p.t2 != p.c
      && KeyOf(p.c) != KeyOf(p.t) && KeyOf(p.t) != KeyOf(p.t2) && KeyOf(p.c) != KeyOf(p.t2)
  {
    var p := Players();
    assert p.c.ins[0].prev.hash == ZeroTxId && p.t.ins[0].prev.hash == HashOf(p.c) && p.t2.ins[0].prev.hash == HashOf(p.t);
  }

  lemma OtherKeys(tag: int)
    requires tag > 0
    ensures var p, r := Players(), RewardTx(tag);
      && r != p.c && r != p.t && r != p.t2
      && KeyOf(r) != KeyOf(p.c) && KeyOf(r) != KeyOf(p.t) && KeyOf(r) != KeyOf(p.t2)
  {
    var p, r := Players(), RewardTx(tag);
    PlayersAre();
    assert r.version == tag && p.c.version == p.t.version == p.t2.version == 0;
  }

  lemma {:induction false} FillOk(path: seq<Block>, n: nat)
    requires EasyPath(path) && 0 < |path| <= n < 499
    ensures EasyPath(Fill(path, n)) && |Fill(path, n)| == n
    ensures SameAt(Replay(path), Replay(Fill(path, n)), KeyOf(Players().c))
    ensures SameAt(Replay(path), Replay(Fill(path, n)), KeyOf(Players().t))
    decreases n - |path|
  {
    hide *;
    FillIs(path, n);
    if |path| < n {
      var r := RewardTx(|path|);
      MinedOk(path, |path|);
      MinedLength(path, |path|);
      OtherKeys(|path|);
      FillOk(Mined(path, |path|), n);
      SameAcross(Replay(path), KeyOf(r), Replay(Mined(path, |path|))[KeyOf(r)], Replay(Mined(path, |path|)), Replay(Fill(path, n)), KeyOf(Players().c));
      SameAcross(Replay(path), KeyOf(r), Replay(Mined(path, |path|))[KeyOf(r)], Replay(Mined(path, |path|)), Replay(Fill(path, n)), KeyOf(Players().t));
    } else {
      SameSelf(path);
    }
  }

  lemma FillIs(path: seq<Block>, n: nat)
    requires n < 500
    ensures Fill(path, n) == if |path| >= n then path else Fill(Mined(path, |path|), n)
  {
    hide Mined;
  }

  lemma SameAcross(a: UtxoSet, x: OutPoint, e: Entry, b: UtxoSet, c: UtxoSet, k: OutPoint)
    requires b == a[x := e] && x != k && SameAt(b, c, k)
    ensures SameAt(a, c, k)
  {
  }

  lemma SameSelf(path: seq<Block>)
    ensures forall k :: SameAt(Replay(path), Replay(path), k)
  {
    hide Replay;
  }

  lemma Values(tag: int, from: Tx, made: int, height: int)
    ensures |RewardTx(tag).outs| == |Pay(from).outs| == 1
    ensures var e := OutEntry(RewardTx(tag), 0, made, true);
      e.value == 5 && (Mature(e, height) <==> height - made >= COINBASE_MATURITY)
    ensures var e := OutEntry(Pay(from), 0, height, false);
      e.value == 5 && Mature(e, height)
    ensures COINBASE_MATURITY == 100
  {
  }

  function FirstSpend(path: seq<Block>): Block
    requires |path| < 500
  {
    Next(path, [RewardTx(|path|), Players().t])
  }

  /** The spender of a matured coinbase goes in. */
  lemma FirstSpendOk(path: seq<Block>)
    requires EasyPath(path) && |path| == 100
    requires KeyOf(Players().c) in Replay(path) && Replay(path)[KeyOf(Players().c)] == Entry(KeyOf(Players().c), 5, [], 0, true)
    ensures EasyPath(path + [FirstSpend(path)]) && KeyOf(Players().t) in Replay(path + [FirstSpend(path)])
  {
    hide *;
    var p := Players();
    var txs := [RewardTx(100), p.t];
    var utxo, b := Replay(path), Next(path, txs);
    PlayersAre();
    FirstSpendIs(path);
    NextIs(path, txs);
    OtherKeys(100);
    First(utxo, txs, 100, 100, b.header.time);
    Coin(KeyOf(p.c), 0, 100);
    assert txs[1] !in txs[..1];
    Further(utxo, txs, 1, p.c, 100, b.header.time);
    BlockPasses(utxo, b, 100, 100);
    Extends(path, txs);
    ReplayNext(path, b);
  }

  lemma FirstSpendIs(path: seq<Block>)
    requires |path| < 500
    ensures FirstSpend(path) == Next(path, [RewardTx(|path|), Players().t])
  {
  }

  /** An unspent coinbase output, as the examples have them. */
  lemma Coin(k: OutPoint, made: int, height: int)
    ensures var e := Entry(k, 5, [], made, true);
      e.value == 5 && (Mature(e, height) <==> height - made >= 100)
  {
  }

  lemma CoinMade(tag: int, height: int)
    ensures |RewardTx(tag).outs| == 1
    ensures OutEntry(RewardTx(tag), 0, height, true) == Entry(KeyOf(RewardTx(tag)), 5, [], height, true)
  {
  }

  /** The coinbase spent at height 100, mined again at 101, and left to mature. */
  function LongPath(): seq<Block> {
    var early := Fill(Mined([], 0), 100);
    LengthOfFill(Mined([], 0), 100);
    var spent := early + [FirstSpend(early)];
    Fill(Mined(spent, 0), 201)
  }

  lemma {:induction false} LengthOfFill(path: seq<Block>, n: nat)
    requires n < 500 && |path| <= n
    ensures |Fill(path, n)| == n
    decreases n - |path|
  {
    if |path| < n {
      LengthOfFill(Mined(path, |path|), n);
    }
  }

  lemma LongPathOk()
    ensures EasyPath(LongPath()) && |LongPath()| == 201
    ensures var p, utxo := Players(), Replay(LongPath());
      && KeyOf(p.t) in utxo
      && KeyOf(p.c) in utxo && utxo[KeyOf(p.c)] == Entry(KeyOf(p.c), 5, [], 101, true)
  {
    hide *;
    var first := Mined([], 0);
    PlayersAre();
    EmptyEasy();
    MinedOk([], 0);
    MinedLength([], 0);
    CoinMade(0, 0);
    FillOk(first, 100);
    var early := Fill(first, 100);
    SameAtIs(Replay(first), Replay(early), KeyOf(Players().c));
    FirstSpendOk(early);
    var spent := early + [FirstSpend(early)];
    var again := Mined(spent, 0);
    MinedOk(spent, 0);
    MinedLength(spent, 0);
    CoinMade(0, 101);
    FillOk(again, 201);
    SameAtIs(Replay(again), Replay(Fill(again, 201)), KeyOf(Players().c));
    SameAtIs(Replay(again), Replay(Fill(again, 201)), KeyOf(Players().t));
    LongPathIs();
  }

  lemma LongPathIs()
    ensures |Fill(Mined([], 0), 100)| == 100
    ensures var early := Fill(Mined([], 0), 100);
      LongPath() == Fill(Mined(early + [FirstSpend(early)], 0), 201)
  {
    LengthOfFill(Mined([], 0), 100);
    hide Fill, FirstSpend, Mined;
  }

  lemma SameAtIs(a: UtxoSet, b: UtxoSet, k: OutPoint)
    requires SameAt(a, b, k)
    ensures (k in a <==> k in b) && (k in a ==> a[k] == b[k])
  {
  }

  /** The batch variables after a transaction that pays on the output of `from`. */
  lemma BatchStep(txs: seq<Tx>, n: nat, from: Tx, height: int)
    requires 0 < n < |txs| && txs[n] == Pay(from)
    ensures Pending(txs, n + 1, height).Keys == (Pending(txs, n, height).Keys - {KeyOf(from)}) + {KeyOf(Pay(from))}
    ensures Seen(txs, n + 1) == Seen(txs, n) + {KeyOf(from)} && Spent(txs[n], false) == {KeyOf(from)}
    ensures Consumed(txs, n + 1, height) == Consumed(txs, n, height) + {KeyOf(from)} * Pending(txs, n, height).Keys
  {
    SpentByPay(from);
    ApplyPay(Pending(txs, n, height), from, height);
    assert Pending(txs, n + 1, height) == ApplyTx(Pending(txs, n, height), txs[n], height, false);
    hide ApplyTx, OutEntry, IsCoinbase;
  }

  function Twice(): seq<Tx> {
    [RewardTx(201), Players().t, Players().t2]
  }

  lemma TwiceIs()
    ensures var txs, p := Twice(), Players();
      |txs| == 3 && txs[0] == RewardTx(201) && txs[1] == p.t && txs[2] == p.t2
  {
  }

  lemma TwiceBatch()
    ensures var txs, k := Twice(), KeyOf(Players().t);
      OnceSpent(txs, |txs|) && k in Consumed(txs, |txs|, 201) && k !in Pending(txs, |txs|, 201)
  {
    hide *;
    var txs, p := Twice(), Players();
    TwiceIs();
    PlayersAre();
    OtherKeys(201);
    OneReward(txs, 201, 201);
    BatchStep(txs, 1, p.c, 201);
    BatchStep(txs, 2, p.t, 201);
    OnceSpentStep(txs, 1);
    OnceSpentStep(txs, 2);
  }

  lemma TwiceOk(path: seq<Block>)
    requires EasyPath(path) && |path| == 201
    requires var k := KeyOf(Players().c);
      k in Replay(path) && Replay(path)[k] == Entry(k, 5, [], 101, true)
    ensures BlockOk(EASY, path, Next(path, Twice()), NOW)
  {
    hide *;
    var txs, p := Twice(), Players();
    var utxo, b := Replay(path), Next(path, txs);
    TwiceIs();
    PlayersAre();
    NextIs(path, txs);
    OtherKeys(201);
    First(utxo, txs, 201, 201, b.header.time);
    Coin(KeyOf(p.c), 101, 201);
    assert txs[1] !in txs[..1];
    Further(utxo, txs, 1, p.c, 201, b.header.time);
    Values(201, p.c, 201, 201);
    assert txs[2] !in txs[..2];
    Further(utxo, txs, 2, p.t, 201, b.header.time);
    BlockPasses(utxo, b, 201, 201);
    Extends(path, txs);
  }

  /** A block that makes and spends an output which the store holds under the same key: it is
    accepted, the batch leaves the stored entry, and running the transactions one at a time
    removes it. */
  method BatchCanDiffer() returns (path: seq<Block>, block: Block, d: Diff)
    ensures ValidPath(EASY, path, NOW) && BlockOk(EASY, path, block, NOW)
    ensures Exact(Replay(path), block.txs, |path|, d) && Commit(Replay(path), d) != Replay(path + [block])
  {
    hide *;
    path := LongPath();
    LongPathOk();
    EasyParts(path);
    block := Next(path, Twice());
    NextIs(path, Twice());
    TwiceOk(path);
    TwiceBatch();
    d := DiffOf(path, block);
    BatchRefinesSequential(Replay(path), block.txs, |path|, d);
    ReplayNext(path, block);
  }

  // ----- Stores -----

  function WorldOf(bs: seq<Block>): iset<Block> {
    iset b | b in bs
  }

  /** Different blocks with different coinbases. */
  ghost predicate Tagged(bs: seq<Block>) {
    forall i :: 0 <= i < |bs| ==> bs[i].txs == [RewardTx(i)]
  }

  lemma TaggedWorld(bs: seq<Block>, g: Hash)
    requires Tagged(bs)
    ensures WorldOk(EASY, WorldOf(bs), g)
  {
    forall p: seq<Block>, t: Clock | ValidPath(EASY, p, t) && InWorld(WorldOf(bs), p) && Begins(p, g)
      ensures CoinbasesDistinct(p)
    {
      hide *;
      ValidPathFacts(EASY, p, t);
      TaggedDistinct(bs, p);
    }
    hide ValidPath, InWorld, Begins, CoinbasesDistinct;
  }

  lemma TaggedDistinct(bs: seq<Block>, p: seq<Block>)
    requires Tagged(bs) && Linked(p) && InWorld(WorldOf(bs), p)
    ensures CoinbasesDistinct(p)
  {
    forall i, j | 0 <= i < j < |p|
      ensures p[i].txs != [] && p[j].txs != [] && p[i].txs[0] != p[j].txs[0]
    {
      PathHashesDiffer(p, i, j);
      hide Linked;
      assert p[i] in bs && p[j] in bs;
      var k, m :| 0 <= k < |bs| && 0 <= m < |bs| && bs[k] == p[i] && bs[m] == p[j];
      assert k != m && RewardTx(k).version != RewardTx(m).version;
    }
  }

  function Blank(): Disk {
    Disk(None, None, map[], map[], map[], map[], map[])
  }

  lemma BlankCore(world: iset<Block>)
    requires WorldOk(EASY, world, ZeroHash)
    ensures Core(EASY, world, Blank(), [], None, NOW) && TipIndex([]) == None
  {
    hide WorldOk;
    assert HeightMap([]) == map[];
  }

  function RewardDiff(tag: int, height: int): Diff {
    Diff([Entry(KeyOf(RewardTx(tag)), 5, [], height, true)], [], [])
  }

  lemma RewardExact(utxo: UtxoSet, tag: int, height: int)
    ensures Exact(utxo, [RewardTx(tag)], height, RewardDiff(tag, height))
  {
    var d := RewardDiff(tag, height);
    OneReward([RewardTx(tag)], tag, height);
    CoinMade(tag, height);
    hide Pending, Seen, Consumed;
    assert KeysOf(d.adds) == {d.adds[0].key} && SetOf(d.spends) == {} && KeysOf(d.spent) == {};
    assert Restrict(utxo, {}) == map[];
  }

  /** The store after a block with the given coinbase was connected. */
  function Grown(d: Disk, path: seq<Block>, tag: int): Disk
    requires |path| < 500
  {
    var b := Next(path, [RewardTx(tag)]);
    Saved(d, b, IndexOf(RootOf(Mined(path, tag)), BlockHash(b)), RewardDiff(tag, |path|))
  }

  lemma GrownCore(world: iset<Block>, d: Disk, path: seq<Block>, tag: int)
    requires Core(EASY, world, d, path, TipIndex(path), NOW) && EasyPath(path) && |path| < 499
    requires Next(path, [RewardTx(tag)]) in world
    ensures var p := Mined(path, tag);
      && EasyPath(p) && |p| == |path| + 1 && Core(EASY, world, Grown(d, path, tag), p, TipIndex(p), NOW)
    ensures var h := BlockHash(Next(path, [RewardTx(tag)]));
      Grown(d, path, tag).hashIndex.Keys == d.hashIndex.Keys + {h}
  {
    hide *;
    var b := Next(path, [RewardTx(tag)]);
    NextIs(path, [RewardTx(tag)]);
    MinedIs(path, tag);
    MinedOk(path, tag);
    RewardExact(Replay(path), tag, |path|);
    CoreConnect(EASY, world, d, path, TipIndex(path), NOW, b, RewardDiff(tag, |path|));
    TipAppend(path, b);
    GrownIs(d, path, tag);
  }

  lemma GrownIs(d: Disk, path: seq<Block>, tag: int)
    requires |path| < 500
    ensures var b, p := Next(path, [RewardTx(tag)]), Mined(path, tag);
      && Grown(d, path, tag) == Saved(d, b, IndexOf(RootOf(p), BlockHash(b)), RewardDiff(tag, |path|))
      && Grown(d, path, tag).hashIndex.Keys == d.hashIndex.Keys + {BlockHash(b)}
  {
    IndexHash(path, Next(path, [RewardTx(tag)]));
    hide IndexOf, RootOf, Next, RewardDiff, Commit;
  }

  // ----- A crash while an old branch goes back on -----

  /** A chain g, b, x whose last two blocks were taken off and stay stored. */
  lemma TakenOff() returns (world: iset<Block>, d: Disk)
    ensures var path := Mined([], 0);
      var b := Next(path, [RewardTx(1)]);
      && EasyPath(path) && |path| == 1 && b in world && Core(EASY, world, d, path, TipIndex(path), NOW)
      && |path + [b]| < 500 && BlockHash(Next(path + [b], [RewardTx(2)])) in d.hashIndex
  {
    hide *;
    var p1 := Mined([], 0);
    MinedLength([], 0);
    var p2 := Mined(p1, 1);
    MinedLength(p1, 1);
    var p3 := Mined(p2, 2);
    var bs := [Next([], [RewardTx(0)]), Next(p1, [RewardTx(1)]), Next(p2, [RewardTx(2)])];
    NextIs([], [RewardTx(0)]);
    NextIs(p1, [RewardTx(1)]);
    NextIs(p2, [RewardTx(2)]);
    TaggedThree(bs);
    world := WorldOf(bs);
    InWorldOf(bs);
    BlankCore(world);
    EmptyEasy();
    GrownCore(world, Blank(), [], 0);
    var d1 := Grown(Blank(), [], 0);
    GrownCore(world, d1, p1, 1);
    var d2 := Grown(d1, p1, 1);
    GrownCore(world, d2, p2, 2);
    d := Grown(d2, p2, 2);
    MinedIs(p1, 1);
    MinedIs(p2, 2);
    d := TakeOff(world, d, p3);
    assert p3[..2] == p2;
    d := TakeOff(world, d, p2);
    assert p2[..1] == p1;
  }

  lemma TaggedThree(bs: seq<Block>)
    requires |bs| == 3 && forall i :: 0 <= i < 3 ==> bs[i].txs == [RewardTx(i)]
    ensures WorldOk(EASY, WorldOf(bs), ZeroHash)
  {
    TaggedWorld(bs, ZeroHash);
  }

  lemma InWorldOf(bs: seq<Block>)
    ensures forall i :: 0 <= i < |bs| ==> bs[i] in WorldOf(bs)
  {
  }

  /** Disconnecting the tip keeps every hash record. */
  lemma TakeOff(world: iset<Block>, d: Disk, path: seq<Block>) returns (d': Disk)
    requires Core(EASY, world, d, path, TipIndex(path), NOW) && |path| > 1
    ensures var front := path[..|path| - 1];
      Core(EASY, world, d', front, TipIndex(front), NOW) && d'.hashIndex == d.hashIndex
  {
    CoreDisconnect(EASY, world, d, path, TipIndex(path), NOW);
    TipOfFront(path);
    hide Core, IndexOf, RootOf, Undone;
    d' := Disconnected(d, d.heightIndex[|path| - 2], d.undo[TipOf(path)]);
  }

  /** The crash while b is connected again: after recovery the stored x has no parent, the node's
    invariant fails, and the work found for x leaves out everything below it. */
  lemma RollbackCanOpenIndex() returns (world: iset<Block>, d: Disk, path: seq<Block>, b: Block, diff: Diff, x: Hash)
    ensures Core(EASY, world, d, path, TipIndex(path), NOW) && b in world && |path| > 0 && BlockOk(EASY, path, b, NOW)
    ensures Exact(Replay(path), b.txs, |path|, diff) && 1 < |SaveSteps(path, b, diff)| - 1
    ensures var d' := AfterSave(d, path, b, diff, 1, []);
      && Base(EASY, world, d', path, TipIndex(path), NOW) && !Core(EASY, world, d', path, TipIndex(path), NOW)
      && x in d'.hashIndex
      && forall memo: map<Hash, nat> :: memo.Keys == ActiveHashes(path, |path|) ==>
           RecordedWork(d', memo, map[], x).Some? && RecordedWork(d', memo, map[], x).value < WorkOf(RootOf(path), x)
  {
    hide *;
    world, d := TakenOff();
    path := Mined([], 0);
    b, diff := Next(path, [RewardTx(1)]), RewardDiff(1, 1);
    MinedOk(path, 1);
    NextIs(path, [RewardTx(1)]);
    RewardExact(Replay(path), 1, 1);
    var top := Next(path + [b], [RewardTx(2)]);
    x := BlockHash(top);
    NextIs(path + [b], [RewardTx(2)]);
    TopChild(path, b, top, d);
    CoreParts(EASY, world, d, path, TipIndex(path), NOW);
    ExtensionFresh(EASY, world, d, path, TipIndex(path), NOW, b);
    ManySteps(path, b, diff);
    SaveEnds(d, path, b, diff, 1, []);
    CrashedSaveCore(EASY, world, d, path, TipIndex(path), NOW, b, diff, 1, []);
    var d' := AfterSave(d, path, b, diff, 1, []);
    ChildLeft(d, path, b, diff, d', x);
    forall memo: map<Hash, nat> | memo.Keys == ActiveHashes(path, |path|)
      ensures RecordedWork(d', memo, map[], x).Some? && RecordedWork(d', memo, map[], x).value < WorkOf(RootOf(path), x)
    {
      GapCountsNothing(EASY, world, d', path, TipIndex(path), NOW, memo, x);
    }
  }

  lemma ManySteps(path: seq<Block>, b: Block, diff: Diff)
    ensures |SaveSteps(path, b, diff)| > 2
  {
    hide Removals, Puts, IndexOf, RootOf;
  }

  lemma TopChild(path: seq<Block>, b: Block, top: Block, d: Disk)
    requires top.header.prev == TipOf(path + [b]) && BlockHash(top) in d.hashIndex
    ensures BlockHash(top).HeaderHash? && BlockHash(top).header.prev == BlockHash(b) && HasChild(d, BlockHash(b))
  {
    RootAppend(path, b);
    assert BlockHash(top).HeaderHash? && BlockHash(top).header.prev == BlockHash(b);
  }

  lemma ChildLeft(d: Disk, path: seq<Block>, b: Block, diff: Diff, d': Disk, x: Hash)
    requires |path| > 0 && Linked(path + [b]) && RolledBack(d, IndexOf(RootOf(path + [b]), BlockHash(b)), diff, d')
    requires x in d.hashIndex && x.HeaderHash? && x.header.prev == BlockHash(b)
    ensures x in d'.hashIndex && x.header.prev !in d'.hashIndex && x != RootOf(path)
  {
    IndexHash(path, b);
    OwnParents(path, b);
    hide IndexOf, RootOf, WriteAll, KeysOf, Depth, Linked;
    assert x != BlockHash(b);
  }

  // ----- A switch that goes astray -----

  /** On a first block g: an active block a; a branch b1, which is listed; and an orphan o and the
    next branch block b2, both on b1. */
  datatype Fork = Fork(base: seq<Block>, active: seq<Block>, branch: seq<Block>, o: Block, b2: Block)

  function ForkOf(): Fork {
    var base := Mined([], 0);
    MinedLength([], 0);
    var branch := Mined(base, 2);
    MinedLength(base, 2);
    Fork(base, Mined(base, 1), branch, Next(branch, [RewardTx(3)]), Next(branch, [RewardTx(4)]))
  }

  function ForkBlocks(): (bs: seq<Block>) {
    MinedLength([], 0);
    var f := ForkOf();
    [Next([], [RewardTx(0)]), Next(f.base, [RewardTx(1)]), Next(f.base, [RewardTx(2)]), f.o, f.b2]
  }

  lemma ForkFacts()
    ensures var f, bs := ForkOf(), ForkBlocks();
      && f.base == Mined([], 0) && |f.base| == 1 && EasyPath(f.base) && f.base == [bs[0]]
      && f.active == f.base + [bs[1]] && f.active == Mined(f.base, 1) && bs[1] == Next(f.base, [RewardTx(1)])
      && f.branch == f.base + [bs[2]] && EasyPath(f.branch)
      && bs[3] == f.o && bs[4] == f.b2 && |bs| == 5
      && f.o.header.prev == BlockHash(bs[2]) && f.b2.header.prev == BlockHash(bs[2])
      && bs[1].header.prev == BlockHash(bs[0]) && bs[2].header.prev == BlockHash(bs[0])
      && BlockOk(EASY, f.branch, f.o, NOW)
      && (forall i :: 0 <= i < 5 ==> bs[i].header.bits == EASY_BITS)
      && Tagged(bs)
    ensures ForkBlocks()[0] == Next([], [RewardTx(0)])
  {
    hide *;
    EmptyEasy();
    MinedOk([], 0);
    MinedLength([], 0);
    MinedIs([], 0);
    var base := Mined([], 0);
    MinedOk(base, 2);
    MinedLength(base, 2);
    MinedIs(base, 1);
    MinedIs(base, 2);
    var branch := Mined(base, 2);
    MinedOk(branch, 3);
    ForkIs();
    NextIs([], [RewardTx(0)]);
    NextIs(base, [RewardTx(1)]);
    NextIs(base, [RewardTx(2)]);
    NextIs(branch, [RewardTx(3)]);
    NextIs(branch, [RewardTx(4)]);
    RootAppend([], Next([], [RewardTx(0)]));
    RootAppend(base, Next(base, [RewardTx(2)]));
    assert [] + [Next([], [RewardTx(0)])] == [Next([], [RewardTx(0)])];
    TaggedFive(ForkBlocks());
  }

  lemma ForkIs()
    ensures |Mined([], 0)| == 1 && |Mined(Mined([], 0), 2)| == 2
    ensures var f, base := ForkOf(), Mined([], 0);
      && f == Fork(base, Mined(base, 1), Mined(base, 2), Next(Mined(base, 2), [RewardTx(3)]), Next(Mined(base, 2), [RewardTx(4)]))
      && ForkBlocks() == [Next([], [RewardTx(0)]), Next(base, [RewardTx(1)]), Next(base, [RewardTx(2)]), f.o, f.b2]
  {
    hide Next, RewardTx;
  }

  lemma TaggedFive(bs: seq<Block>)
    requires |bs| == 5 && bs[0].txs == [RewardTx(0)] && bs[1].txs == [RewardTx(1)] && bs[2].txs == [RewardTx(2)]
    requires bs[3].txs == [RewardTx(3)] && bs[4].txs == [RewardTx(4)]
    ensures Tagged(bs)
  {
    hide RewardTx;
  }

  /** The store with the active chain g, a. */
  function ForkStore(): Disk {
    MinedLength([], 0);
    Grown(Grown(Blank(), [], 0), Mined([], 0), 1)
  }

  lemma ForkCore()
    ensures var f, world := ForkOf(), WorldOf(ForkBlocks());
      && Core(EASY, world, ForkStore(), f.active, TipIndex(f.active), NOW)
      && ForkStore().hashIndex.Keys == {BlockHash(ForkBlocks()[0]), BlockHash(ForkBlocks()[1])}
      && (forall i :: 0 <= i < 5 ==> ForkBlocks()[i] in world) && |ForkBlocks()| == 5
  {
    hide *;
    var f, bs, world := ForkOf(), ForkBlocks(), WorldOf(ForkBlocks());
    ForkFacts();
    TaggedWorld(bs, ZeroHash);
    InWorldOf(bs);
    BlankCore(world);
    EmptyEasy();
    GrownCore(world, Blank(), [], 0);
    GrownCore(world, Grown(Blank(), [], 0), f.base, 1);
    ForkStoreIs();
  }

  lemma ForkStoreIs()
    ensures |Mined([], 0)| == 1 && ForkStore() == Grown(Grown(Blank(), [], 0), Mined([], 0), 1)
    ensures Blank().hashIndex.Keys == {}
  {
    MinedLength([], 0);
    hide Grown, Mined;
  }

  /** The listed node of b1. */
  function ForkNode(): SideNode {
    var b1 := ForkBlocks()[2];
    SideNode(BlockHash(b1), b1.header.prev, 1, b1, 2 * WorkForBits(EASY_BITS))
  }

  lemma ForkWork(g: Hash, h: Hash, above: Hash)
    requires g.HeaderHash? && h.HeaderHash? && above.HeaderHash? && h.header.prev == g && above.header.prev == h
    requires g.header.bits == h.header.bits == above.header.bits == EASY_BITS
    ensures h != g && above != g && Rooted(g, h) && HeightOf(g, h) == 1
    ensures WorkOf(g, h) == 2 * WorkForBits(EASY_BITS) && WorkOf(g, above) == 3 * WorkForBits(EASY_BITS)
  {
    assert Depth(h) == 1 + Depth(g) && Depth(above) == 1 + Depth(h);
    assert WorkOf(g, g) == WorkForBits(EASY_BITS);
    hide WorkForBits;
  }

  lemma EasyWork()
    ensures WorkForBits(EASY_BITS) >= 2
  {
    EasyBitsDecode();
    WorkAtLeastTwo(0, EASY_BITS);
    hide CompactToBig, EasyTarget;
  }

  /** What the object of the example keeps besides the store. */
  lemma ForkMaps()
    ensures |ForkBlocks()| == 5
    ensures var f, bs, world := ForkOf(), ForkBlocks(), WorldOf(ForkBlocks());
      var h, x := BlockHash(bs[2]), BlockHash(f.o);
      && MemoOk(RootOf(f.active), map[], map[])
      && SidesOk(world, RootOf(f.active), map[h := ForkNode()])
      && OrphansOk(world, map[x := f.o], map[x := h], [x])
  {
    hide *;
    var f, bs, world := ForkOf(), ForkBlocks(), WorldOf(ForkBlocks());
    ForkFacts();
    ForkCore();
    RootAppend([], bs[0]);
    RootAppend(f.base, bs[1]);
    assert [] + [bs[0]] == [bs[0]];
    MemoEmpty(RootOf(f.active));
    ForkNodeOk(world, bs, RootOf(f.active));
    NothingYet(world, RootOf(f.active));
    SidesPut(world, RootOf(f.active), map[], BlockHash(bs[2]), ForkNode());
    OneOrphan(world, f.o, BlockHash(bs[2]));
  }

  lemma ForkNodeOk(world: iset<Block>, bs: seq<Block>, g: Hash)
    requires bs == ForkBlocks() && |bs| == 5 && g == BlockHash(bs[0]) && bs[2] in world
    requires bs[2].header.prev == BlockHash(bs[0]) && bs[4].header.prev == BlockHash(bs[2])
    requires forall i :: 0 <= i < 5 ==> bs[i].header.bits == EASY_BITS
    ensures SideOk(world, g, BlockHash(bs[2]), ForkNode())
  {
    ForkWork(g, BlockHash(bs[2]), BlockHash(bs[4]));
    hide ForkBlocks, WorkForBits, Rooted, HeightOf, WorkOf;
  }

  lemma OneOrphan(world: iset<Block>, o: Block, parent: Hash)
    requires o in world
    ensures var x := BlockHash(o);
      OrphansOk(world, map[x := o], map[x := parent], [x])
  {
  }

  /** Processing b2 has to go astray: o fits on b1. */
  lemma ForkAstray()
    ensures |ForkBlocks()| == 5
    ensures var f, bs := ForkOf(), ForkBlocks();
      var h, x := BlockHash(bs[2]), BlockHash(f.o);
      var branch := BranchTo(map[h := ForkNode()], f.active, f.b2);
      && branch == Some(f.branch + [f.b2])
      && GoesAstray(EASY, map[x := f.o], map[h := [x]], f.active, branch.value, NOW)
      && WorkOf(RootOf(f.active), BlockHash(f.b2)) > WorkOf(RootOf(f.active), TipOf(f.active))
      && |f.active| > 0 && f.b2.header.prev != TipOf(f.active)
      && BlockHash(f.b2) !in ForkStore().hashIndex && BlockHash(f.b2) != x
  {
    hide *;
    var f, bs := ForkOf(), ForkBlocks();
    ForkFacts();
    ForkCore();
    RootAppend([], bs[0]);
    RootAppend(f.base, bs[1]);
    RootAppend(f.base, bs[2]);
    assert [] + [bs[0]] == [bs[0]];
    ForkHashes(bs);
    ForkBranch(bs);
    EasyParts(f.branch);
    var h, x := BlockHash(bs[2]), BlockHash(f.o);
    OneEligible(f.o, f.branch, h);
    assert f.branch[1] == bs[2] && f.active[1] == bs[1];
    AstrayAt(f.branch, f.b2, f.active, map[x := f.o], map[h := [x]]);
    ForkWork(BlockHash(bs[0]), BlockHash(bs[2]), BlockHash(bs[4]));
    ForkWork(BlockHash(bs[0]), BlockHash(bs[1]), HeaderHash(Header(0, BlockHash(bs[1]), [], 0, EASY_BITS, 0)));
    EasyWork();
  }

  /** The five blocks are different, so their hashes are. */
  lemma ForkHashes(bs: seq<Block>)
    requires |bs| == 5 && Tagged(bs) && bs == ForkBlocks()
    ensures forall i, j :: 0 <= i < j < 5 ==> BlockHash(bs[i]) != BlockHash(bs[j]) && bs[i] != bs[j]
    ensures forall i :: 0 <= i < 5 ==> BlockHash(bs[i]).HeaderHash? && BlockHash(bs[i]).header == bs[i].header
  {
    forall i | 0 <= i < 5
      ensures bs[i].header.merkle == MerkleRoot([RewardTx(i)])
    {
      ForkMerkle();
    }
    forall i, j | 0 <= i < j < 5
      ensures bs[i].header != bs[j].header
    {
      assert MerkleRoot([RewardTx(i)])[0].tx.version == i && MerkleRoot([RewardTx(j)])[0].tx.version == j;
    }
    hide ForkBlocks, RewardTx, MerkleRoot;
  }

  lemma ForkMerkle()
    ensures var bs := ForkBlocks();
      |bs| == 5 && forall i :: 0 <= i < 5 ==> bs[i].header.merkle == MerkleRoot([RewardTx(i)])
  {
    hide *;
    ForkIs();
    var base := Mined([], 0);
    NextIs([], [RewardTx(0)]);
    NextIs(base, [RewardTx(1)]);
    NextIs(base, [RewardTx(2)]);
    NextIs(Mined(base, 2), [RewardTx(3)]);
    NextIs(Mined(base, 2), [RewardTx(4)]);
  }

  lemma ForkBranch(bs: seq<Block>)
    requires bs == ForkBlocks() && |bs| == 5
    requires forall i, j :: 0 <= i < j < 5 ==> BlockHash(bs[i]) != BlockHash(bs[j])
    requires bs[2].header.prev == BlockHash(bs[0]) && bs[4].header.prev == BlockHash(bs[2])
    ensures BranchTo(map[BlockHash(bs[2]) := ForkNode()], [bs[0]] + [bs[1]], bs[4]) == Some([bs[0]] + [bs[2]] + [bs[4]])
  {
    var path, h := [bs[0]] + [bs[1]], BlockHash(bs[2]);
    var sides := map[h := ForkNode()];
    assert path == [bs[0], bs[1]];
    assert BlockHash(path[0]) == BlockHash(bs[0]);
    assert IsActive(path, BlockHash(bs[0])) && !IsActive(path, h);
    assert Position(path, BlockHash(bs[0])) == 0;
    assert path[..1] == [bs[0]];
    assert BranchPath(sides, path, h) == Some([bs[0]] + [bs[2]]);
    hide ForkBlocks;
  }

  lemma OneEligible(o: Block, path: seq<Block>, h: Hash)
    requires |path| > 0 && TipOf(path) == h && o.header.prev == h && BlockOk(EASY, path, o, NOW)
    ensures var x := BlockHash(o);
      !NoneEligible(EASY, map[x := o], path, NOW, WaitingFor(map[h := [x]], TipOf(path)))
  {
    var x := BlockHash(o);
    hide BlockOk;
    assert Eligible(EASY, map[x := o], path, NOW, x);
  }

  lemma AstrayAt(branch: seq<Block>, next: Block, path: seq<Block>, pool: map<Hash, Block>, byPrev: map<Hash, seq<Hash>>)
    requires |branch| > 0 && !(branch <= path) && ValidPath(EASY, branch, NOW)
    requires !NoneEligible(EASY, pool, branch, NOW, WaitingFor(byPrev, TipOf(branch)))
    ensures GoesAstray(EASY, pool, byPrev, path, branch + [next], NOW)
  {
    var target := branch + [next];
    assert target[..|branch|] == branch;
    hide NoneEligible, ValidPath;
    assert StraysAt(EASY, pool, byPrev, target, NOW, |branch|);
  }

  /** A valid node with a listed branch block b1 and an orphan on it is handed the next branch
    block: the switch is refused, and still the active chain is not what it was. */
  method StrandedSwitch() returns (c: Chain, status: BlockStatus, ghost before: seq<Block>)
    ensures fresh(c) && fresh(c.store) && c.Valid()
    ensures status == Rejected && c.path != before && ValidPath(EASY, before, NOW)
  {
    var f, bs := ForkOf(), ForkBlocks();
    hide *;
    ghost var world := WorldOf(bs);
    ForkFacts();
    ForkCore();
    ForkMaps();
    ForkAstray();
    before := f.active;
    var h, x := BlockHash(bs[2]), BlockHash(f.o);
    var store := new FileStore(ForkStore());
    c := new Chain(EASY, store, NOW, world, f.active);
    c.tip := TipIndex(f.active);
    c.sideBlocks := map[h := ForkNode()];
    c.orphanByHash, c.orphanByPrev, c.orphanParent, c.orphanOrder := map[x := f.o], map[h := [x]], map[x := h], [x];
    c.CoreValidIs();
    c.ValidIs();
    c.PathValid();
    c.StoredMeans(BlockHash(f.b2));
    c.OutweighsIs(BlockHash(f.b2));
    var err;
    status, err := c.ProcessBlock(f.b2);
  }
}
