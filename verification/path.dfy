/** Chains of blocks as values: what a valid chain is, and what each block's index record is. */
module ChainPath {
  import opened Wire
  import opened ChainCfg
  import opened Consensus
  import opened Ledger
  import opened Supply
  import opened Unique

  /** The parts of the chain parameters and of the hasher that validation reads. */
  datatype Params = Params(txRules: TxRules, powValue: Hash -> nat, genesisBits: uint32, postGenesisBits: uint32)

  datatype BlockIndex = BlockIndex(
    height: int, hash: Hash, time: uint32, bits: uint32, nonce: uint32, parent: Hash, chainWork: nat)

  /** A clock reading for which adding the future drift does not wrap in 32 bits. */
  type Clock = t: int | 0 <= t && t + MAX_FUTURE_DRIFT < 0x1_0000_0000

  // ----- Rolling windows over headers -----

  const MTP_WINDOW := 11

  function Min(a: int, b: int): int {
    if a < b then a else b
  }

  function EntryAt(hs: seq<Header>, i: nat): BlockWindowEntry
    requires i < |hs|
  {
    BlockWindowEntry(i, hs[i].time, hs[i].bits)
  }

  /** The `limit` most recent entries, newest first. */
  function Recent(hs: seq<Header>, limit: nat): seq<BlockWindowEntry> {
    seq(Min(|hs|, limit), i requires 0 <= i < Min(|hs|, limit) => EntryAt(hs, |hs| - 1 - i))
  }

  function Insert(x: int, xs: seq<int>): seq<int> {
    if |xs| == 0 || x <= xs[0] then [x] + xs else [xs[0]] + Insert(x, xs[1..])
  }

  function Sort(xs: seq<int>): seq<int> {
    if |xs| == 0 then [] else Insert(xs[0], Sort(xs[1..]))
  }

  ghost predicate Sorted(xs: seq<int>) {
    forall i, j :: 0 <= i < j < |xs| ==> xs[i] <= xs[j]
  }

  lemma {:induction false} InsertKeeps(x: int, xs: seq<int>)
    ensures multiset(Insert(x, xs)) == multiset(xs) + multiset{x}
  {
    if |xs| > 0 && x > xs[0] {
      InsertKeeps(x, xs[1..]);
      assert xs == [xs[0]] + xs[1..];
    }
  }

  lemma {:induction false} InsertSorts(x: int, xs: seq<int>)
    requires Sorted(xs)
    ensures Sorted(Insert(x, xs))
  {
    if |xs| > 0 && x > xs[0] {
      InsertSorts(x, xs[1..]);
      var rest := Insert(x, xs[1..]);
      InsertKeeps(x, xs[1..]);
      forall k | 0 <= k < |rest|
        ensures xs[0] <= rest[k]
      {
        assert rest[k] in multiset(rest);
        assert rest[k] == x || rest[k] in xs[1..];
      }
    }
  }

  /** `Sort` is the sorted arrangement of its input. */
  lemma {:induction false} SortSorts(xs: seq<int>)
    ensures Sorted(Sort(xs)) && multiset(Sort(xs)) == multiset(xs) && |Sort(xs)| == |xs|
  {
    if |xs| > 0 {
      SortSorts(xs[1..]);
      InsertSorts(xs[0], Sort(xs[1..]));
      InsertKeeps(xs[0], Sort(xs[1..]));
      assert xs == [xs[0]] + xs[1..];
      assert |multiset(Sort(xs))| == |multiset(xs)|;
    }
  }

  function Median(times: seq<int>): int
    requires |times| > 0
  {
    SortSorts(times);
    Sort(times)[|times| / 2]
  }

  /** How many of the times lie below t. */
  function Below(times: seq<int>, t: int): nat {
    if |times| == 0 then 0 else (if times[0] < t then 1 else 0) + Below(times[1..], t)
  }

  lemma {:induction false} BelowInsert(x: int, xs: seq<int>, t: int)
    ensures Below(Insert(x, xs), t) == Below(xs, t) + if x < t then 1 else 0
  {
    if |xs| > 0 && x > xs[0] {
      BelowInsert(x, xs[1..], t);
    }
  }

  lemma {:induction false} BelowSort(xs: seq<int>, t: int)
    ensures Below(Sort(xs), t) == Below(xs, t)
  {
    if |xs| > 0 {
      BelowSort(xs[1..], t);
      BelowInsert(xs[0], Sort(xs[1..]), t);
    }
  }

  /** In order, k + 1 times lie below t exactly when the one at k does. */
  lemma {:induction false} BelowSorted(xs: seq<int>, k: nat, t: int)
    requires Sorted(xs) && k < |xs|
    ensures xs[k] < t <==> Below(xs, t) > k
  {
    var rest := xs[1..];
    if k > 0 {
      BelowSorted(rest, k - 1, t);
    } else if xs[0] >= t && |xs| > 1 {
      BelowSorted(rest, 0, t);
    }
  }

  /** The median lies below t exactly when more than half of the times do. */
  lemma MedianBelow(times: seq<int>, t: int)
    requires |times| > 0
    ensures Median(times) < t <==> Below(times, t) > |times| / 2
  {
    SortSorts(times);
    BelowSort(times, t);
    BelowSorted(Sort(times), |times| / 2, t);
    hide Sort;
  }

  function TimesOf(recent: seq<BlockWindowEntry>): seq<int> {
    seq(Min(|recent|, MTP_WINDOW), i requires 0 <= i < Min(|recent|, MTP_WINDOW) => recent[i].time)
  }

  /** Median time past, from a window. */
  function MedianTime(recent: seq<BlockWindowEntry>): int {
    if |recent| == 0 then 0 else Median(TimesOf(recent))
  }

  function RequiredBits(params: Params, recent: seq<BlockWindowEntry>): uint32 {
    if |recent| == 0 then params.genesisBits
    else
      var post := if params.postGenesisBits == 0 then params.genesisBits else params.postGenesisBits;
      if |recent| < DGW_PAST_BLOCKS then post
      else DarkGravityWave(recent[..DGW_PAST_BLOCKS], TARGET_SPACING, POW_LIMIT, post)
  }

  // ----- Validity of one header and of one block -----

  /** A header extends the headers `hs`: link, median time past, future drift, bits and work. */
  predicate HeaderOk(params: Params, hs: seq<Header>, h: Header, now: Clock) {
    && (|hs| > 0 ==> h.prev == HeaderHash(hs[|hs| - 1]) && h.time > MedianTime(Recent(hs, DGW_PAST_BLOCKS)))
    && h.time <= now + MAX_FUTURE_DRIFT
    && h.bits == RequiredBits(params, Recent(hs, DGW_PAST_BLOCKS))
    && CheckProofOfWork(params.powValue(HeaderHash(h)), h.bits)
  }

  /** The times of the latest headers, up to eleven of them, newest first. */
  function LatestTimes(hs: seq<Header>): seq<int> {
    seq(if |hs| < 11 then |hs| else 11, i requires 0 <= i < |hs| => hs[|hs| - 1 - i].time)
  }

  /** What an acceptable header is: it follows the tip and more than half of the eleven latest times,
    lies at most two hours ahead, and its hash does not exceed the target of the required bits. */
  lemma HeaderMeans(params: Params, hs: seq<Header>, h: Header, now: Clock)
    ensures HeaderOk(params, hs, h, now) <==>
      && (|hs| > 0 ==> h.prev == HeaderHash(hs[|hs| - 1]))
      && (|hs| > 0 ==> Below(LatestTimes(hs), h.time) > |LatestTimes(hs)| / 2)
      && h.time <= now + 7200
      && h.bits == RequiredBits(params, Recent(hs, DGW_PAST_BLOCKS))
      && 0 < CompactToBig(h.bits) <= POW_LIMIT && params.powValue(HeaderHash(h)) <= CompactToBig(h.bits)
  {
    hide RequiredBits, CompactToBig, Below, Median;
    if |hs| > 0 {
      var recent := Recent(hs, DGW_PAST_BLOCKS);
      var times, latest := TimesOf(recent), LatestTimes(hs);
      assert |times| == |latest|;
      forall i | 0 <= i < |times|
        ensures times[i] == latest[i]
      {
        assert recent[i] == EntryAt(hs, |hs| - 1 - i);
      }
      assert times == latest;
      MedianBelow(LatestTimes(hs), h.time);
    }
  }

  function HeadersOf(path: seq<Block>): seq<Header> {
    seq(|path|, i requires 0 <= i < |path| => path[i].header)
  }

  predicate BlockOk(params: Params, path: seq<Block>, b: Block, now: Clock) {
    && |b.txs| > 0
    && b.header.merkle == MerkleRoot(b.txs)
    && HeaderOk(params, HeadersOf(path), b.header, now)
    && BlockTxsOk(params.txRules, Replay(path), b, |path|)
  }

  /** The first block needs no parent; the code lets a built-in genesis skip the header rules. */
  predicate GenesisOk(params: Params, b: Block) {
    && b.header.merkle == MerkleRoot(b.txs)
    && CheckProofOfWork(params.powValue(BlockHash(b)), b.header.bits)
    && BlockTxsOk(params.txRules, map[], b, 0)
  }

  predicate ExtendsOk(params: Params, path: seq<Block>, b: Block, now: Clock) {
    if |path| == 0 then GenesisOk(params, b) else BlockOk(params, path, b, now)
  }

  /** Every block was acceptable on the blocks below it, by a clock no later than `now`. */
  ghost predicate ValidPath(params: Params, path: seq<Block>, now: Clock) {
    forall i :: 0 <= i < |path| ==> ExtendsOk(params, path[..i], path[i], now)
  }

  ghost predicate Linked(path: seq<Block>) {
    forall i :: 0 < i < |path| ==> path[i].header.prev == BlockHash(path[i - 1])
  }

  lemma ValidPathPrefix(params: Params, path: seq<Block>, n: nat, now: Clock, later: Clock)
    requires n <= |path| && ValidPath(params, path, now) && now <= later
    ensures ValidPath(params, path[..n], later)
  {
    var p := path[..n];
    forall i | 0 <= i < n
      ensures ExtendsOk(params, p[..i], p[i], later)
    {
      assert p[..i] == path[..i] && ExtendsOk(params, path[..i], path[i], now);
      hide ValidPath;
      ExtendsLater(params, path[..i], path[i], now, later);
    }
    hide ExtendsOk;
  }

  lemma ExtendsLater(params: Params, path: seq<Block>, b: Block, now: Clock, later: Clock)
    requires ExtendsOk(params, path, b, now) && now <= later
    ensures ExtendsOk(params, path, b, later)
  {
    hide GenesisOk, RequiredBits, MedianTime, BlockTxsOk, CheckProofOfWork, Replay, MerkleRoot, Recent;
  }

  lemma ValidPathAppend(params: Params, path: seq<Block>, b: Block, now: Clock)
    requires ValidPath(params, path, now) && ExtendsOk(params, path, b, now)
    ensures ValidPath(params, path + [b], now)
  {
    var p := path + [b];
    forall i | 0 <= i < |p|
      ensures ExtendsOk(params, p[..i], p[i], now)
    {
      assert p[..i] == if i < |path| then path[..i] else path;
      hide ExtendsOk;
    }
  }

  lemma ValidPathFacts(params: Params, path: seq<Block>, now: Clock)
    requires ValidPath(params, path, now)
    ensures TxsValid(params.txRules, path) && Linked(path)
    ensures forall i :: 0 <= i < |path| ==>
      && path[i].header.merkle == MerkleRoot(path[i].txs)
      && CheckProofOfWork(params.powValue(BlockHash(path[i])), path[i].header.bits)
  {
    forall i | 0 <= i < |path|
      ensures BlockTxsOk(params.txRules, Replay(path[..i]), path[i], i)
      ensures i > 0 ==> path[i].header.prev == BlockHash(path[i - 1])
      ensures path[i].header.merkle == MerkleRoot(path[i].txs)
      ensures CheckProofOfWork(params.powValue(BlockHash(path[i])), path[i].header.bits)
    {
      assert ExtendsOk(params, path[..i], path[i], now);
      hide RequiredBits, MedianTime, BlockTxsOk, CheckProofOfWork;
    }
  }

  // ----- Index records, as functions of the block hash -----

  /** The chain of parents of `h` reaches the root `g`. */
  predicate Rooted(g: Hash, h: Hash) {
    h == g || (h.HeaderHash? && Rooted(g, h.header.prev))
  }

  function HeightOf(g: Hash, h: Hash): nat {
    if h == g || h.ZeroHash? then 0 else 1 + HeightOf(g, h.header.prev)
  }

  /** The sum of the blocks' work along the parent path down to the root. */
  function WorkOf(g: Hash, h: Hash): nat {
    if h.ZeroHash? then 0
    else WorkForBits(h.header.bits) + if h == g then 0 else WorkOf(g, h.header.prev)
  }

  function ParentOf(g: Hash, h: Hash): Hash {
    if h == g || h.ZeroHash? then ZeroHash else h.header.prev
  }

  function IndexOf(g: Hash, h: Hash): BlockIndex
    requires h.HeaderHash?
  {
    BlockIndex(HeightOf(g, h), h, h.header.time, h.header.bits, h.header.nonce, ParentOf(g, h), WorkOf(g, h))
  }

  function Depth(h: Hash): nat {
    if h.ZeroHash? then 0 else 1 + Depth(h.header.prev)
  }

  function RootOf(path: seq<Block>): Hash {
    if |path| == 0 then ZeroHash else BlockHash(path[0])
  }

  function TipOf(path: seq<Block>): Hash {
    if |path| == 0 then ZeroHash else BlockHash(path[|path| - 1])
  }

  lemma {:induction false} DepthOnPath(path: seq<Block>, i: nat)
    requires Linked(path) && i < |path|
    ensures Depth(BlockHash(path[i])) == Depth(RootOf(path)) + i
  {
    if i > 0 {
      DepthOnPath(path, i - 1);
    }
  }

  /** On a linked path, heights are positions and hashes are pairwise different. */
  lemma {:induction false} OnPath(path: seq<Block>, i: nat)
    requires Linked(path) && i < |path|
    ensures Rooted(RootOf(path), BlockHash(path[i]))
    ensures HeightOf(RootOf(path), BlockHash(path[i])) == i
    ensures ParentOf(RootOf(path), BlockHash(path[i])) == if i == 0 then ZeroHash else BlockHash(path[i - 1])
    ensures WorkOf(RootOf(path), BlockHash(path[i]))
         == WorkForBits(path[i].header.bits) + if i == 0 then 0 else WorkOf(RootOf(path), BlockHash(path[i - 1]))
  {
    if i > 0 {
      OnPath(path, i - 1);
      DepthOnPath(path, i);
    }
  }

  lemma PathHashesDiffer(path: seq<Block>, i: nat, j: nat)
    requires Linked(path) && i < j < |path|
    ensures BlockHash(path[i]) != BlockHash(path[j])
  {
    DepthOnPath(path, i);
    DepthOnPath(path, j);
  }

  lemma {:induction false} WorkGrows(params: Params, path: seq<Block>, i: nat, j: nat, now: Clock)
    requires ValidPath(params, path, now) && i <= j < |path|
    ensures WorkOf(RootOf(path), BlockHash(path[j])) >= WorkOf(RootOf(path), BlockHash(path[i])) + 2 * (j - i)
    decreases j
  {
    if i < j {
      WorkGrows(params, path, i, j - 1, now);
      ValidPathFacts(params, path, now);
      OnPath(path, j);
      WorkAtLeastTwo(params.powValue(BlockHash(path[j])), path[j].header.bits);
      hide *;
    }
  }
}
